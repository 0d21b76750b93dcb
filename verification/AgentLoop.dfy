// runner.go: the agent's event loop.  What arrives, from the upstream stream, the
// tool-result channel and the timers, is an arbitrary sequence of inputs.
module AgentLoops {
  import opened Events
  import opened Strings
  import opened ToolIds

  const MAX_PENDING: nat := 256

  // The parts of a request that the loop looks at.
  datatype Config = Config(
    tools: set<string>,
    allowSearch: bool,
    allowFetch: bool,
    requireSearch: bool,
    requireFetch: bool,
    requireHosted: bool,
    resume: bool,
    maxParallel: int,
    history: bool)

  datatype ServerMessage =
    | TextDelta(text: string)
    | ThinkingDelta(text: string)
    | ThinkingEnd
    | HostedTool(completed: bool, search: Option<HostedSearch>, callId: string)
    | Ignored
    | StreamMcp(toolName: string, toolCallId: string, callId: string)
    // Answered with a reply; `encodes` is false where no reply can be built.
    | Reply(encodes: bool)
    // An interaction that was approved as a new hosted use counts it.
    | Interaction(encodes: bool, newUse: bool)
    | ExecAbort
    | TokenDelta(tokens: Int64, usage: Option<UsageObservation>)
    | CheckpointData(checkpoint: string)
    | TurnEnd(usage: Option<UsageObservation>)
    | KvSet(key: string, value: string, fits: bool)
    | Mcp(messageId: nat, execId: string, toolCallId: string, name: string, arguments: string)
    | UnsupportedExec

  // One turn of the select loop.  A frame or a stream that cannot be read any
  // further is Broken; an idle timer fires only for real while nothing is pending.
  datatype Input =
    | ContextDone
    | Idle
    | Result(result: ToolResult)
    | ResultsClosed
    | Broken
    | EndStream(trailerOk: bool)
    | Server(message: ServerMessage)

  datatype Status = Running | Returned(ok: bool)

  datatype Loop = Loop(
    pending: map<string, ToolCall>,
    queued: map<string, ToolResult>,
    streamed: set<string>,
    hosted: map<string, HostedSearch>,
    blobs: map<string, string>,
    resultsOpen: bool,
    turnEnded: bool,
    parked: bool,
    searchRan: bool,
    fetchRan: bool,
    trace: seq<Event>,
    status: Status)

  function NewLoop(blobs: map<string, string>, resultsOpen: bool): Loop {
    Loop(map[], map[], {}, map[], blobs, resultsOpen, false, false, false, false, [], Running)
  }

  const NO_EVENT := Event(NoType, "", "", 0, 0, None, None, None, None, "", map[])

  function Fail(s: Loop): Loop {
    s.(status := Returned(false))
  }

  predicate IsSearch(h: HostedSearch) {
    h.kind == "web_search" || h.kind == "exa_search"
  }

  predicate IsFetch(h: HostedSearch) {
    h.kind == "web_fetch" || h.kind == "exa_fetch"
  }

  predicate RunsHosted(e: Event) {
    (e.kind == HostedSearchStarted || e.kind == HostedSearchCompleted) && e.search.Some?
  }

  // emit, which also notes the hosted tools that ran.
  function Emit(s: Loop, e: Event): Loop {
    s.(trace := s.trace + [e],
       searchRan := s.searchRan || (RunsHosted(e) && IsSearch(e.search.value)),
       fetchRan := s.fetchRan || (RunsHosted(e) && IsFetch(e.search.value)))
  }

  // sendToolResult, for a call that is pending.
  function SendResult(s: Loop, result: ToolResult, writes: bool): Loop {
    if !writes then Fail(s)
    else
      var pending := s.pending - {result.toolCallId};
      Emit(s.(pending := pending, parked := s.parked && pending != map[]), NO_EVENT.(kind := ToolResultAccepted, toolResult := Some(result)))
  }

  function TakeResult(s: Loop, given: ToolResult, writes: bool): Loop {
    var result := given.(toolCallId := Trim(given.toolCallId));
    if !s.resultsOpen then s
    else if result.toolCallId == "" then Fail(s)
    else if result.toolCallId in s.pending then SendResult(s, result, writes)
    else if |s.queued| >= MAX_PENDING then Fail(s)
    else s.(queued := s.queued[result.toolCallId := result])
  }

  // The checks that stand between the end of the stream and EventDone.
  predicate MayFinish(c: Config, s: Loop) {
    && s.turnEnded && s.pending == map[] && s.streamed == {} && s.hosted == map[]
    && (c.requireSearch && !c.resume ==> s.searchRan)
    && (c.requireFetch && !c.resume ==> s.fetchRan)
    && (c.requireHosted && !c.resume ==> s.searchRan || s.fetchRan)
  }

  function Finish(s: Loop): Loop {
    Emit(s, NO_EVENT.(kind := Done)).(status := Returned(true))
  }

  // recordStreamMCP
  function RecordStreamed(c: Config, s: Loop, toolName: string, toolCallId: string, callId: string): Loop {
    var (name, id) := (Trim(toolName), if Trim(toolCallId) == "" then Trim(callId) else Trim(toolCallId));
    if name == "" || id == "" || name !in c.tools || id in s.pending then s else s.(streamed := s.streamed + {id})
  }

  predicate ArgsReady(h: HostedSearch) {
    Trim(h.query) != "" || (IsFetch(h) && Trim(h.url) != "")
  }

  function Or(s: string, other: string): string {
    if s == "" then other else s
  }

  // mergeHostedSearch
  function MergeSearch(current: HostedSearch, next: HostedSearch): HostedSearch {
    HostedSearch(current.callId, Or(next.kind, current.kind), Or(next.query, current.query), Or(next.url, current.url),
                 Or(next.argsJson, current.argsJson),
                 if next.references.Some? && next.references.value != [] then next.references else current.references,
                 Or(next.content, current.content), Or(next.error, current.error))
  }

  // applyHostedSearchMessage
  function ApplyHosted(c: Config, s: Loop, completed: bool, given: Option<HostedSearch>, callId: string): Loop {
    if given.None? then Fail(s)
    else if !IsSearch(given.value) && !IsFetch(given.value) then Fail(s)
    else if (IsSearch(given.value) && !c.allowSearch) || (IsFetch(given.value) && !c.allowFetch) then Fail(s)
    else
      var id := if Trim(given.value.callId) == "" then Trim(callId) else Trim(given.value.callId);
      var search := if Trim(given.value.callId) == "" then given.value.(callId := id) else given.value;
      if id == "" then Fail(s)
      else
        var merged := if id in s.hosted then MergeSearch(s.hosted[id], search) else search;
        if completed then
          Emit(s.(hosted := s.hosted - {id}), NO_EVENT.(kind := HostedSearchCompleted, search := Some(merged)))
        else
          var open := s.(hosted := s.hosted[id := merged]);
          if !ArgsReady(merged) || (id in s.hosted && ArgsReady(s.hosted[id])) then open
          else Emit(open, NO_EVENT.(kind := HostedSearchStarted, search := Some(merged)))
  }

  function EndTurn(s: Loop, usage: Option<UsageObservation>): Loop {
    var observed := if usage.Some? then usage.value else Usage(false, TurnEndedUsage, NO_COUNT, NO_COUNT, NO_COUNT,
        NO_COUNT, NO_COUNT, NO_COUNT);
    var t := Emit(s.(turnEnded := true), NO_EVENT.(kind := UsageObserved, usage := Some(observed)));
    if t.pending != map[] && !t.parked then Emit(t.(parked := true), NO_EVENT.(kind := TurnEnded)) else t
  }

  // A caller tool call: answered at once if its result is already here, and
  // announced otherwise.
  function TakeMcp(c: Config, s: Loop, m: ServerMessage, writes: bool): Loop
    requires m.Mcp?
  {
    var id := Trim(m.toolCallId);
    if !s.resultsOpen then if writes then s else Fail(s)
    else if id == "" then Fail(s)
    else if id !in s.pending && |s.pending| >= MAX_PENDING then Fail(s)
    else if id !in s.pending && c.maxParallel > 0 && |s.pending| >= c.maxParallel then Fail(s)
    else
      var call := ToolCall(m.messageId, m.execId, id, m.name, m.arguments);
      var t := s.(streamed := s.streamed - {id}, pending := s.pending[id := call]);
      if id in s.queued then SendResult(t.(queued := t.queued - {id}), s.queued[id], writes)
      else
        var u := Emit(t, NO_EVENT.(kind := ToolCallEvent, toolCall := Some(call)));
        if c.history then Finish(u)
        else if c.maxParallel == 1 && !u.parked then Emit(u.(parked := true), NO_EVENT.(kind := TurnEnded))
        else u
  }

  function TakeMessage(c: Config, s: Loop, m: ServerMessage, writes: bool): Loop {
    match m
    case TextDelta(text) => if text == "" then s else Emit(s, NO_EVENT.(kind := Text, text := text))
    case ThinkingDelta(text) => if text == "" then s else Emit(s, NO_EVENT.(kind := Thinking, text := text))
    case ThinkingEnd => Emit(s, NO_EVENT.(kind := ThinkingCompleted))
    case HostedTool(completed, search, callId) => ApplyHosted(c, s, completed, search, callId)
    case Ignored => s
    case StreamMcp(toolName, toolCallId, callId) => RecordStreamed(c, s, toolName, toolCallId, callId)
    case Reply(encodes) => if encodes && writes then s else Fail(s)
    case Interaction(encodes, newUse) =>
      if !encodes || !writes then Fail(s) else if newUse then Emit(s, NO_EVENT.(kind := HostedSearchCall)) else s
    case ExecAbort => Fail(s)
    case TokenDelta(tokens, usage) => Emit(s, NO_EVENT.(kind := UsageDelta, tokens := tokens, usage := usage))
    case CheckpointData(checkpoint) => Emit(s, NO_EVENT.(kind := Checkpoint, checkpoint := checkpoint, blobs := s.blobs))
    case TurnEnd(usage) => EndTurn(s, usage)
    case KvSet(key, value, fits) =>
      if !fits then Fail(s)
      else
        var t := s.(blobs := s.blobs[key := value]);
        if writes then t else Fail(t)
    case Mcp(_, _, _, _, _) => TakeMcp(c, s, m, writes)
    case UnsupportedExec => Fail(s)
  }

  // One input; `writes` says whether a write to the upstream succeeds.
  function Step(c: Config, s: Loop, input: Input, writes: bool): Loop {
    if s.status != Running then s
    else match input
      case ContextDone => Fail(s)
      case Idle => if s.pending != map[] then s else Fail(s)
      case Result(result) => TakeResult(s, result, writes)
      case ResultsClosed => s.(resultsOpen := false)
      case Broken => Fail(s)
      case EndStream(trailerOk) => if trailerOk && MayFinish(c, s) then Finish(s) else Fail(s)
      case Server(message) => TakeMessage(c, s, message, writes)
  }

  function Run(c: Config, s: Loop, inputs: seq<(Input, bool)>): Loop {
    if inputs == [] then s
    else
      var (before, last) := (Run(c, s, inputs[..|inputs| - 1]), inputs[|inputs| - 1]);
      Step(c, before, last.0, last.1)
  }

  // ---------------------------------------------------------------------
  // What the events alone say
  // ---------------------------------------------------------------------

  predicate Announces(e: Event, id: string) {
    e.kind == ToolCallEvent && e.toolCall.Some? && e.toolCall.value.toolCallId == id
  }

  predicate Accepts(e: Event, id: string) {
    e.kind == ToolResultAccepted && e.toolResult.Some? && e.toolResult.value.toolCallId == id
  }

  // The calls that were announced and not accepted since.
  function Open(trace: seq<Event>): set<string> {
    if trace == [] then {}
    else
      var (before, e) := (Open(trace[..|trace| - 1]), trace[|trace| - 1]);
      if e.kind == ToolCallEvent && e.toolCall.Some? then before + {e.toolCall.value.toolCallId}
      else if e.kind == ToolResultAccepted && e.toolResult.Some? then before - {e.toolResult.value.toolCallId}
      else before
  }

  // Whether the turn was handed over since the last time nothing was open.
  function HandedOver(trace: seq<Event>): bool {
    if trace == [] then false
    else
      var e := trace[|trace| - 1];
      if e.kind == TurnEnded then true
      else if e.kind == ToolResultAccepted && Open(trace) == {} then false
      else HandedOver(trace[..|trace| - 1])
  }

  // Every handover comes while calls are open, and only once until all of them
  // are accepted.
  predicate HandsOverOnce(trace: seq<Event>) {
    trace == []
    || (&& HandsOverOnce(trace[..|trace| - 1])
        && (trace[|trace| - 1].kind == TurnEnded ==> Open(trace[..|trace| - 1]) != {} && !HandedOver(trace[..|trace| - 1])))
  }

  predicate Undone(trace: seq<Event>) {
    forall e :: e in trace ==> e.kind != Done
  }

  function HostedRuns(trace: seq<Event>, search: bool): bool {
    exists e :: e in trace && RunsHosted(e) && if search then IsSearch(e.search.value) else IsFetch(e.search.value)
  }

  predicate UnansweredAt(trace: seq<Event>, id: string, i: nat) {
    i < |trace| && Announces(trace[i], id) && forall j :: i < j < |trace| ==> !Accepts(trace[j], id)
  }

  lemma UnansweredBefore(trace: seq<Event>, id: string, i: nat)
    requires trace != [] && i < |trace| - 1
    ensures UnansweredAt(trace, id, i) <==> UnansweredAt(trace[..|trace| - 1], id, i) && !Accepts(trace[|trace| - 1], id)
  {
    var n := |trace| - 1;
    if UnansweredAt(trace[..n], id, i) && !Accepts(trace[n], id) {
      forall j | i < j < |trace|
        ensures !Accepts(trace[j], id)
      {
        assert j < n ==> trace[..n][j] == trace[j];
      }
    }
  }

  // A call is open exactly when it was announced and no later event accepts it.
  lemma {:induction false} OpenIsUnanswered(trace: seq<Event>, id: string)
    ensures id in Open(trace) <==> exists i :: UnansweredAt(trace, id, i)
  {
    if trace != [] {
      var n := |trace| - 1;
      OpenIsUnanswered(trace[..n], id);
      forall i | 0 <= i < n
        ensures UnansweredAt(trace, id, i) <==> UnansweredAt(trace[..n], id, i) && !Accepts(trace[n], id)
      {
        UnansweredBefore(trace, id, i);
      }
      LastUnanswered(trace, id);
      OpenAfterLast(trace, id);
    }
  }

  lemma LastUnanswered(trace: seq<Event>, id: string)
    requires trace != []
    ensures UnansweredAt(trace, id, |trace| - 1) <==> Announces(trace[|trace| - 1], id)
  {}

  lemma OpenAfterLast(trace: seq<Event>, id: string)
    requires trace != []
    ensures var e := trace[|trace| - 1];
            id in Open(trace) <==> Announces(e, id) || (id in Open(trace[..|trace| - 1]) && !Accepts(e, id))
  {}

  // ---------------------------------------------------------------------
  // The invariant of the loop
  // ---------------------------------------------------------------------

  ghost predicate RunningInv(s: Loop) {
    && s.pending.Keys == Open(s.trace) && s.parked == HandedOver(s.trace) && s.pending.Keys !! s.queued.Keys
    && |s.pending| <= MAX_PENDING && |s.queued| <= MAX_PENDING
    && (forall id :: id in s.queued ==> s.queued[id].toolCallId == id)
  }

  predicate TraceInv(s: Loop) {
    && HandsOverOnce(s.trace)
    && s.searchRan == HostedRuns(s.trace, true) && s.fetchRan == HostedRuns(s.trace, false)
    && (s.turnEnded ==> TurnSeen(s.trace))
  }

  predicate TurnSeen(trace: seq<Event>) {
    exists e :: e in trace && e.kind == UsageObserved
  }

  ghost predicate Inv(c: Config, s: Loop) {
    && TraceInv(s)
    && match s.status
       case Running => RunningInv(s) && Undone(s.trace)
       case Returned(true) => FinishedInv(c, s)
       case Returned(false) => Undone(s.trace)
  }

  // The end of a run that succeeded.
  predicate FinishedInv(c: Config, s: Loop) {
    && s.trace != [] && s.trace[|s.trace| - 1].kind == Done && Undone(s.trace[..|s.trace| - 1])
    && (!c.history ==> MayFinish(c, s) && Open(s.trace) == {})
  }

  lemma OpenOfLast(trace: seq<Event>, e: Event)
    ensures Open(trace + [e]) == (if e.kind == ToolCallEvent && e.toolCall.Some? then Open(trace) + {e.toolCall.value.toolCallId}
                                  else if e.kind == ToolResultAccepted && e.toolResult.Some? then Open(trace) - {e.toolResult.value.toolCallId}
                                  else Open(trace))
    ensures HandedOver(trace + [e]) == (e.kind == TurnEnded
                                        || (!(e.kind == ToolResultAccepted && Open(trace + [e]) == {}) && HandedOver(trace)))
    ensures HandsOverOnce(trace + [e]) <==> HandsOverOnce(trace) && (e.kind == TurnEnded ==> Open(trace) != {} && !HandedOver(trace))
  {
    assert (trace + [e])[..|trace|] == trace;
  }

  lemma HostedOfLast(trace: seq<Event>, e: Event, search: bool)
    ensures HostedRuns(trace + [e], search)
            <==> HostedRuns(trace, search) || (RunsHosted(e) && if search then IsSearch(e.search.value) else IsFetch(e.search.value))
  {
    var t := trace + [e];
    assert e in t;
    assert forall x :: x in trace ==> x in t;
  }

  // Emitting what neither opens, answers nor hands over a call.
  lemma EmitTraces(s: Loop, e: Event)
    requires TraceInv(s) && (e.kind == TurnEnded ==> Open(s.trace) != {} && !HandedOver(s.trace))
    ensures TraceInv(Emit(s, e))
  {
    hide Open, HandedOver, HandsOverOnce, HostedRuns;
    OpenOfLast(s.trace, e);
    HostedOfLast(s.trace, e, true);
    HostedOfLast(s.trace, e, false);
    if s.turnEnded {
      var x :| x in s.trace && x.kind == UsageObserved;
      assert x in s.trace + [e];
    }
  }

  predicate Plain(e: Event) {
    e.kind != ToolCallEvent && e.kind != ToolResultAccepted && e.kind != TurnEnded && e.kind != Done
  }

  lemma PlainEmitKeepsInv(c: Config, s: Loop, e: Event)
    requires Inv(c, s) && s.status == Running && Plain(e)
    ensures Inv(c, Emit(s, e))
  {
    hide Open, HandedOver, TraceInv;
    EmitTraces(s, e);
    OpenOfLast(s.trace, e);
  }

  lemma FailKeepsInv(c: Config, s: Loop)
    requires Inv(c, s) && s.status == Running
    ensures Inv(c, Fail(s))
  {
    hide Open, HandedOver, HandsOverOnce, HostedRuns;
  }

  lemma FieldsKeepInv(c: Config, s: Loop, t: Loop)
    requires Inv(c, s) && s.status == Running
    requires t.pending == s.pending && t.queued == s.queued && t.trace == s.trace && t.status == s.status && t.parked == s.parked
    requires t.turnEnded == s.turnEnded && t.searchRan == s.searchRan && t.fetchRan == s.fetchRan
    ensures Inv(c, t)
  {
    hide Open, HandedOver, HandsOverOnce, HostedRuns;
  }

  // The call `id` is pending and not queued; everything else agrees with the trace.
  ghost predicate Answerable(s: Loop, id: string) {
    && TraceInv(s) && s.status == Running && Undone(s.trace)
    && id in s.pending && s.pending.Keys - {id} == Open(s.trace) - {id} && s.parked == HandedOver(s.trace)
    && s.pending.Keys !! s.queued.Keys && |s.pending| <= MAX_PENDING && |s.queued| <= MAX_PENDING
    && (forall k :: k in s.queued ==> s.queued[k].toolCallId == k)
  }

  lemma SendKeepsInv(c: Config, s: Loop, result: ToolResult, writes: bool)
    requires Answerable(s, result.toolCallId)
    ensures Inv(c, SendResult(s, result, writes))
  {
    hide Open, HandedOver, HandsOverOnce, HostedRuns, TraceInv;
    if writes {
      var pending := s.pending - {result.toolCallId};
      var e := NO_EVENT.(kind := ToolResultAccepted, toolResult := Some(result));
      var t := s.(pending := pending, parked := s.parked && pending != map[]);
      SameTraceInv(s, t);
      EmitTraces(t, e);
      OpenOfLast(s.trace, e);
      Fewer(s.pending, result.toolCallId);
      assert pending == map[] <==> pending.Keys == {};
    } else {
      SameTraceInv(s, Fail(s));
    }
  }

  lemma SameTraceInv(s: Loop, t: Loop)
    requires TraceInv(s) && t.trace == s.trace && t.searchRan == s.searchRan && t.fetchRan == s.fetchRan && t.turnEnded == s.turnEnded
    ensures TraceInv(t)
  {
    hide HandsOverOnce, HostedRuns, TurnSeen;
  }

  lemma Fewer<T>(m: map<string, T>, id: string)
    requires id in m
    ensures (m - {id}).Keys == m.Keys - {id} && |m - {id}| < |m|
  {
    assert m.Keys == (m - {id}).Keys + {id};
  }

  lemma QueueKeepsInv(c: Config, s: Loop, result: ToolResult)
    requires Inv(c, s) && s.status == Running && result.toolCallId !in s.pending && |s.queued| < MAX_PENDING
    ensures Inv(c, s.(queued := s.queued[result.toolCallId := result]))
  {
    hide Open, HandedOver, HandsOverOnce, HostedRuns, TraceInv;
    var t := s.(queued := s.queued[result.toolCallId := result]);
    More(s.queued, result.toolCallId, result);
    SameTraceInv(s, t);
  }

  lemma PendingIsAnswerable(c: Config, s: Loop, id: string)
    requires Inv(c, s) && s.status == Running && id in s.pending
    ensures Answerable(s, id)
  {
    hide Open, HandedOver, TraceInv;
  }

  lemma TakeResultKeepsInv(c: Config, s: Loop, given: ToolResult, writes: bool)
    requires Inv(c, s) && s.status == Running
    ensures Inv(c, TakeResult(s, given, writes))
  {
    hide Trim, SendResult, Inv, Answerable;
    var result := given.(toolCallId := Trim(given.toolCallId));
    FailKeepsInv(c, s);
    if s.resultsOpen && result.toolCallId != "" {
      if result.toolCallId in s.pending {
        PendingIsAnswerable(c, s, result.toolCallId);
        SendKeepsInv(c, s, result, writes);
      } else if |s.queued| < MAX_PENDING {
        QueueKeepsInv(c, s, result);
      }
    }
  }

  lemma More<T>(m: map<string, T>, id: string, value: T)
    ensures m[id := value].Keys == m.Keys + {id} && |m[id := value]| <= |m| + 1
  {
    assert m[id := value].Keys == m.Keys + {id};
  }

  lemma FinishKeepsInv(c: Config, s: Loop)
    requires TraceInv(s) && Undone(s.trace) && s.status == Running
    requires c.history || (MayFinish(c, s) && Open(s.trace) == {})
    ensures Inv(c, Finish(s))
  {
    hide Open, HandedOver, HandsOverOnce, HostedRuns, TraceInv;
    var e := NO_EVENT.(kind := Done);
    EmitTraces(s, e);
    OpenOfLast(s.trace, e);
    assert (s.trace + [e])[..|s.trace|] == s.trace;
    SameTraceInv(Emit(s, e), Finish(s));
  }

  lemma HandOverKeepsInv(c: Config, s: Loop)
    requires Inv(c, s) && s.status == Running && s.pending != map[] && !s.parked
    ensures Inv(c, Emit(s.(parked := true), NO_EVENT.(kind := TurnEnded)))
  {
    hide Open, HandedOver, HandsOverOnce, HostedRuns, TraceInv;
    var (t, e) := (s.(parked := true), NO_EVENT.(kind := TurnEnded));
    assert s.pending.Keys != {};
    SameTraceInv(s, t);
    EmitTraces(t, e);
    OpenOfLast(s.trace, e);
  }

  lemma EndTurnKeepsInv(c: Config, s: Loop, usage: Option<UsageObservation>)
    requires Inv(c, s) && s.status == Running
    ensures Inv(c, EndTurn(s, usage))
  {
    hide Open, HandedOver, HandsOverOnce, HostedRuns;
    var observed := if usage.Some? then usage.value else Usage(false, TurnEndedUsage, NO_COUNT, NO_COUNT, NO_COUNT,
        NO_COUNT, NO_COUNT, NO_COUNT);
    var e := NO_EVENT.(kind := UsageObserved, usage := Some(observed));
    PlainEmitKeepsInv(c, s, e);
    var t := Emit(s.(turnEnded := true), e);
    assert e in t.trace;
    assert Inv(c, t);
    if t.pending != map[] && !t.parked {
      HandOverKeepsInv(c, t);
    }
  }

  // A call whose result came first.
  lemma QueuedIsAnswerable(c: Config, s: Loop, id: string, call: ToolCall, streamed: set<string>)
    requires Inv(c, s) && s.status == Running && id in s.queued && (id in s.pending || |s.pending| < MAX_PENDING)
    ensures Answerable(s.(streamed := streamed, pending := s.pending[id := call], queued := s.queued - {id}), id)
    ensures s.queued[id].toolCallId == id
  {
    hide Open, HandedOver, HandsOverOnce, HostedRuns, TraceInv;
    More(s.pending, id, call);
    SamePending(s.pending, id, call);
    Fewer(s.queued, id);
    SameTraceInv(s, s.(streamed := streamed, pending := s.pending[id := call], queued := s.queued - {id}));
  }

  lemma AnnouncedSize(s: Loop, id: string, call: ToolCall)
    requires |s.pending| <= MAX_PENDING && (id in s.pending || |s.pending| < MAX_PENDING)
    ensures |s.pending[id := call]| <= MAX_PENDING
  {
    More(s.pending, id, call);
    SamePending(s.pending, id, call);
  }

  // After a new call was announced the turn may be handed over at once.
  lemma AnnouncedKeepsInv(c: Config, u: Loop, id: string)
    requires Inv(c, u) && u.status == Running && id in u.pending
    ensures Inv(c, if c.history then Finish(u)
                   else if c.maxParallel == 1 && !u.parked then Emit(u.(parked := true), NO_EVENT.(kind := TurnEnded))
                   else u)
  {
    hide Finish, Emit;
    if c.history {
      RunningIsUndone(c, u);
      FinishKeepsInv(c, u);
    } else if c.maxParallel == 1 && !u.parked {
      HandOverKeepsInv(c, u);
    }
  }

  lemma RunningIsUndone(c: Config, s: Loop)
    requires Inv(c, s) && s.status == Running
    ensures TraceInv(s) && Undone(s.trace) && |s.pending| <= MAX_PENDING
  {
    hide Open, HandedOver, TraceInv;
  }

  lemma TakeMcpKeepsInv(c: Config, s: Loop, m: ServerMessage, writes: bool)
    requires Inv(c, s) && s.status == Running && m.Mcp?
    ensures Inv(c, TakeMcp(c, s, m, writes))
  {
    hide Trim, SendResult, Finish, Inv, Answerable, Emit;
    FailKeepsInv(c, s);
    RunningIsUndone(c, s);
    var id := Trim(m.toolCallId);
    var call := ToolCall(m.messageId, m.execId, id, m.name, m.arguments);
    var t := s.(streamed := s.streamed - {id}, pending := s.pending[id := call]);
    if s.resultsOpen && (id in s.pending || |s.pending| < MAX_PENDING) {
      if id in s.queued {
        QueuedIsAnswerable(c, s, id, call, s.streamed - {id});
        SendKeepsInv(c, t.(queued := t.queued - {id}), s.queued[id], writes);
      } else {
        AnnouncedSize(s, id, call);
        AnnounceKeepsInv(c, s, t, id, call);
        var u := Emit(t, NO_EVENT.(kind := ToolCallEvent, toolCall := Some(call)));
        EmitKeepsFields(t, NO_EVENT.(kind := ToolCallEvent, toolCall := Some(call)));
        AnnouncedKeepsInv(c, u, id);
      }
    }
  }

  lemma EmitKeepsFields(s: Loop, e: Event)
    ensures Emit(s, e).pending == s.pending && Emit(s, e).status == s.status && Emit(s, e).parked == s.parked
  {}

  lemma SamePending(m: map<string, ToolCall>, id: string, call: ToolCall)
    ensures id in m ==> |m[id := call]| == |m|
  {
    if id in m {
      assert m[id := call].Keys == m.Keys;
    }
  }

  lemma AnnounceKeepsInv(c: Config, s: Loop, t: Loop, id: string, call: ToolCall)
    requires Inv(c, s) && s.status == Running && id !in s.queued && call.toolCallId == id
    requires t == s.(streamed := t.streamed, pending := s.pending[id := call]) && |t.pending| <= MAX_PENDING
    ensures Inv(c, Emit(t, NO_EVENT.(kind := ToolCallEvent, toolCall := Some(call))))
  {
    hide Open, HandedOver, HandsOverOnce, HostedRuns, TraceInv;
    var e := NO_EVENT.(kind := ToolCallEvent, toolCall := Some(call));
    SameTraceInv(s, t);
    EmitTraces(t, e);
    OpenOfLast(s.trace, e);
    assert t.pending.Keys == s.pending.Keys + {id};
  }

  lemma HostedEmitKeepsInv(c: Config, s: Loop, hosted: map<string, HostedSearch>, e: Event)
    requires Inv(c, s) && s.status == Running && Plain(e)
    ensures Inv(c, s.(hosted := hosted)) && Inv(c, Emit(s.(hosted := hosted), e))
  {
    hide Inv, Emit;
    FieldsKeepInv(c, s, s.(hosted := hosted));
    PlainEmitKeepsInv(c, s.(hosted := hosted), e);
  }

  lemma ApplyHostedKeepsInv(c: Config, s: Loop, completed: bool, given: Option<HostedSearch>, callId: string)
    requires Inv(c, s) && s.status == Running
    ensures Inv(c, ApplyHosted(c, s, completed, given, callId))
  {
    hide Inv, Trim, MergeSearch, ArgsReady, Emit, IsSearch, IsFetch;
    FailKeepsInv(c, s);
    if given.Some? {
      var id := if Trim(given.value.callId) == "" then Trim(callId) else Trim(given.value.callId);
      var search := if Trim(given.value.callId) == "" then given.value.(callId := id) else given.value;
      var merged := if id in s.hosted then MergeSearch(s.hosted[id], search) else search;
      HostedEmitKeepsInv(c, s, s.hosted - {id}, NO_EVENT.(kind := HostedSearchCompleted, search := Some(merged)));
      HostedEmitKeepsInv(c, s, s.hosted[id := merged], NO_EVENT.(kind := HostedSearchStarted, search := Some(merged)));
    }
  }

  predicate OnlyEmits(m: ServerMessage) {
    m.TextDelta? || m.ThinkingDelta? || m.ThinkingEnd? || m.Interaction? || m.TokenDelta? || m.CheckpointData?
  }

  lemma EmittingKeepsInv(c: Config, s: Loop, m: ServerMessage, writes: bool)
    requires Inv(c, s) && s.status == Running && OnlyEmits(m)
    ensures Inv(c, TakeMessage(c, s, m, writes))
  {
    hide Inv, ApplyHosted, RecordStreamed, EndTurn, TakeMcp, Emit;
    FailKeepsInv(c, s);
    match m {
      case TextDelta(text) => PlainEmitKeepsInv(c, s, NO_EVENT.(kind := Text, text := text));
      case ThinkingDelta(text) => PlainEmitKeepsInv(c, s, NO_EVENT.(kind := Thinking, text := text));
      case ThinkingEnd => PlainEmitKeepsInv(c, s, NO_EVENT.(kind := ThinkingCompleted));
      case Interaction(_, _) => PlainEmitKeepsInv(c, s, NO_EVENT.(kind := HostedSearchCall));
      case TokenDelta(tokens, usage) => PlainEmitKeepsInv(c, s, NO_EVENT.(kind := UsageDelta, tokens := tokens, usage := usage));
      case CheckpointData(checkpoint) =>
        PlainEmitKeepsInv(c, s, NO_EVENT.(kind := Checkpoint, checkpoint := checkpoint, blobs := s.blobs));
    }
  }

  lemma KvSetKeepsInv(c: Config, s: Loop, key: string, value: string)
    requires Inv(c, s) && s.status == Running
    ensures var t := s.(blobs := s.blobs[key := value]); Inv(c, t) && Inv(c, Fail(t))
  {
    hide Inv;
    FieldsKeepInv(c, s, s.(blobs := s.blobs[key := value]));
    FailKeepsInv(c, s.(blobs := s.blobs[key := value]));
  }

  lemma TakeMessageKeepsInv(c: Config, s: Loop, m: ServerMessage, writes: bool)
    requires Inv(c, s) && s.status == Running
    ensures Inv(c, TakeMessage(c, s, m, writes))
  {
    hide Inv, ApplyHosted, RecordStreamed, EndTurn, TakeMcp, Emit, Fail;
    if OnlyEmits(m) {
      EmittingKeepsInv(c, s, m, writes);
    } else {
      FailKeepsInv(c, s);
      match m {
        case HostedTool(completed, search, callId) => ApplyHostedKeepsInv(c, s, completed, search, callId);
        case StreamMcp(toolName, toolCallId, callId) => StreamedKeepsInv(c, s, toolName, toolCallId, callId);
        case TurnEnd(usage) => EndTurnKeepsInv(c, s, usage);
        case KvSet(key, value, _) => KvSetKeepsInv(c, s, key, value);
        case Mcp(_, _, _, _, _) => TakeMcpKeepsInv(c, s, m, writes);
        case _ =>
      }
    }
  }

  lemma StreamedKeepsInv(c: Config, s: Loop, toolName: string, toolCallId: string, callId: string)
    requires Inv(c, s) && s.status == Running
    ensures Inv(c, RecordStreamed(c, s, toolName, toolCallId, callId))
  {
    hide Trim, Inv;
    var id := if Trim(toolCallId) == "" then Trim(callId) else Trim(toolCallId);
    FieldsKeepInv(c, s, s.(streamed := s.streamed + {id}));
  }

  lemma StepKeepsInv(c: Config, s: Loop, input: Input, writes: bool)
    requires Inv(c, s)
    ensures Inv(c, Step(c, s, input, writes))
  {
    hide Inv, TakeResult, TakeMessage, Finish, MayFinish;
    if s.status == Running {
      FailKeepsInv(c, s);
      match input {
        case Result(result) => TakeResultKeepsInv(c, s, result, writes);
        case ResultsClosed => FieldsKeepInv(c, s, s.(resultsOpen := false));
        case EndStream(_) =>
          if MayFinish(c, s) {
            FinishedIsOpen(c, s);
            FinishKeepsInv(c, s);
          }
        case Server(message) => TakeMessageKeepsInv(c, s, message, writes);
        case _ =>
      }
    }
  }

  lemma FinishedIsOpen(c: Config, s: Loop)
    requires Inv(c, s) && s.status == Running && MayFinish(c, s)
    ensures TraceInv(s) && Undone(s.trace) && Open(s.trace) == {}
  {
    hide Open, HandedOver, TraceInv;
  }

  lemma {:induction false} RunKeepsInv(c: Config, blobs: map<string, string>, resultsOpen: bool,
      inputs: seq<(Input, bool)>)
    ensures Inv(c, Run(c, NewLoop(blobs, resultsOpen), inputs))
  {
    hide Inv, Step;
    if inputs == [] {
      NewLoopInv(c, blobs, resultsOpen);
    } else {
      RunKeepsInv(c, blobs, resultsOpen, inputs[..|inputs| - 1]);
      var last := inputs[|inputs| - 1];
      StepKeepsInv(c, Run(c, NewLoop(blobs, resultsOpen), inputs[..|inputs| - 1]), last.0, last.1);
    }
  }

  lemma NewLoopInv(c: Config, blobs: map<string, string>, resultsOpen: bool)
    ensures Inv(c, NewLoop(blobs, resultsOpen))
  {}

  // EventDone is emitted at most once and last, by a run that succeeds.  Without a
  // history key a turn end was seen by then, no call, streamed tool or search is
  // open, the required hosted tools ran, and every announced call has an accepted
  // result after its last announcement.
  lemma DoneIsLast(c: Config, blobs: map<string, string>, resultsOpen: bool, inputs: seq<(Input, bool)>, i: nat)
    requires var s := Run(c, NewLoop(blobs, resultsOpen), inputs); i < |s.trace| && s.trace[i].kind == Done
    ensures var s := Run(c, NewLoop(blobs, resultsOpen), inputs);
            && i == |s.trace| - 1 && s.status == Returned(true)
            && (!c.history ==>
                  && MayFinish(c, s) && TurnSeen(s.trace)
                  && (c.requireSearch && !c.resume ==> HostedRuns(s.trace, true))
                  && (c.requireFetch && !c.resume ==> HostedRuns(s.trace, false))
                  && forall k, id :: 0 <= k < |s.trace| && Announces(s.trace[k], id) ==>
                       exists j :: k < j < |s.trace| && Accepts(s.trace[j], id))
  {
    hide Run, Open, HandedOver, HandsOverOnce, HostedRuns;
    RunKeepsInv(c, blobs, resultsOpen, inputs);
    var s := Run(c, NewLoop(blobs, resultsOpen), inputs);
    assert s.trace[i] in s.trace;
    DoneIsAtTheEnd(s.trace, i);
    if !c.history {
      forall k, id | 0 <= k < |s.trace| && Announces(s.trace[k], id)
        ensures exists j :: k < j < |s.trace| && Accepts(s.trace[j], id)
      {
        OpenIsUnanswered(s.trace, id);
        assert !UnansweredAt(s.trace, id, k);
      }
    }
  }

  lemma DoneIsAtTheEnd(trace: seq<Event>, i: nat)
    requires i < |trace| && trace[i].kind == Done && Undone(trace[..|trace| - 1])
    ensures i == |trace| - 1
  {
    var front := trace[..|trace| - 1];
    assert forall k :: 0 <= k < |front| ==> front[k] in front && front[k] == trace[k];
  }

  lemma InvHandsOver(c: Config, s: Loop)
    requires Inv(c, s)
    ensures HandsOverOnce(s.trace)
  {}

  // EventTurnEnded is emitted only while calls are open, and not twice unless all
  // of them were accepted in between.
  lemma TurnsAreHandedOverOnce(c: Config, blobs: map<string, string>, resultsOpen: bool, inputs: seq<(Input, bool)>,
      i: nat)
    requires var s := Run(c, NewLoop(blobs, resultsOpen), inputs); i < |s.trace| && s.trace[i].kind == TurnEnded
    ensures var trace := Run(c, NewLoop(blobs, resultsOpen), inputs).trace;
            && Open(trace[..i]) != {}
            && forall k :: 0 <= k < i && trace[k].kind == TurnEnded ==>
                 exists j :: k < j <= i && Open(trace[..j]) == {}
  {
    hide Run, Inv, Open, HandedOver, HandsOverOnce;
    RunKeepsInv(c, blobs, resultsOpen, inputs);
    InvHandsOver(c, Run(c, NewLoop(blobs, resultsOpen), inputs));
    var trace := Run(c, NewLoop(blobs, resultsOpen), inputs).trace;
    HandoversOf(trace, i);
    forall k | 0 <= k < i && trace[k].kind == TurnEnded
      ensures exists j :: k < j <= i && Open(trace[..j]) == {}
    {
      StaysHandedOver(trace[..i], k);
      var j :| k < j <= i && Open(trace[..i][..j]) == {};
      assert trace[..i][..j] == trace[..j];
    }
  }

  lemma {:induction false} HandoversOf(trace: seq<Event>, i: nat)
    requires HandsOverOnce(trace) && i < |trace| && trace[i].kind == TurnEnded
    ensures Open(trace[..i]) != {} && !HandedOver(trace[..i])
  {
    if i < |trace| - 1 {
      assert trace[..|trace| - 1][..i] == trace[..i];
      HandoversOf(trace[..|trace| - 1], i);
    }
  }

  lemma {:induction false} StaysHandedOver(trace: seq<Event>, k: nat)
    requires k < |trace| && trace[k].kind == TurnEnded && !HandedOver(trace)
    ensures exists j :: k < j <= |trace| && Open(trace[..j]) == {}
  {
    var n := |trace| - 1;
    if trace[n].kind == ToolResultAccepted && Open(trace) == {} {
      assert trace[..|trace|] == trace;
    } else {
      assert k < n;
      StaysHandedOver(trace[..n], k);
      var j :| k < j <= n && Open(trace[..n][..j]) == {};
      assert trace[..n][..j] == trace[..j];
    }
  }
}
