// The loop of runner.go as it is written: maps, flags and the events handed on are
// updated as inputs arrive, until the run returns.
module AgentRuns {
  import opened Events
  import opened Strings
  import opened ToolIds
  import opened AgentLoops

  class AgentRun {
    const config: Config
    var pendingTools: map<string, ToolCall>
    var queuedResults: map<string, ToolResult>
    var streamMCP: set<string>
    var openHosted: map<string, HostedSearch>
    var blobStore: map<string, string>
    var resultsOpen: bool
    var turnEnded: bool
    var parkSignaled: bool
    var hostedSearchExecuted: bool
    var hostedFetchExecuted: bool
    var emitted: seq<Event>
    var status: Status

    function View(): Loop
      reads this
    {
      Loop(pendingTools, queuedResults, streamMCP, openHosted, blobStore, resultsOpen, turnEnded, parkSignaled,
          hostedSearchExecuted,
           hostedFetchExecuted, emitted, status)
    }

    constructor (config: Config, blobs: map<string, string>, resultsOpen: bool)
      ensures View() == NewLoop(blobs, resultsOpen) && this.config == config
    {
      this.config, this.resultsOpen, blobStore := config, resultsOpen, blobs;
      pendingTools, queuedResults, streamMCP, openHosted := map[], map[], {}, map[];
      turnEnded, parkSignaled, hostedSearchExecuted, hostedFetchExecuted := false, false, false, false;
      emitted, status := [], Running;
    }

    method EmitEvent(e: Event)
      modifies this`emitted, this`hostedSearchExecuted, this`hostedFetchExecuted
      ensures View() == Emit(old(View()), e)
    {
      hide IsSearch, IsFetch;
      if RunsHosted(e) {
        if IsSearch(e.search.value) {
          hostedSearchExecuted := true;
        }
        if IsFetch(e.search.value) {
          hostedFetchExecuted := true;
        }
      }
      emitted := emitted + [e];
    }

    method ReturnError()
      modifies this`status
      ensures View() == Fail(old(View()))
    {
      status := Returned(false);
    }

    method SendToolResult(result: ToolResult, writes: bool)
      modifies this
      ensures View() == SendResult(old(View()), result, writes)
    {
      hide Emit;
      if !writes {
        ReturnError();
        return;
      }
      pendingTools := pendingTools - {result.toolCallId};
      if pendingTools == map[] {
        parkSignaled := false;
      }
      EmitEvent(NO_EVENT.(kind := ToolResultAccepted, toolResult := Some(result)));
    }

    method OnResult(given: ToolResult, writes: bool)
      modifies this
      ensures View() == TakeResult(old(View()), given, writes)
    {
      hide Trim, SendResult;
      if !resultsOpen {
        return;
      }
      var result := given.(toolCallId := Trim(given.toolCallId));
      if result.toolCallId == "" {
        ReturnError();
      } else if result.toolCallId in pendingTools {
        SendToolResult(result, writes);
      } else if |queuedResults| >= MAX_PENDING {
        ReturnError();
      } else {
        queuedResults := queuedResults[result.toolCallId := result];
      }
    }

    method OnMcp(m: ServerMessage, writes: bool)
      requires m.Mcp?
      modifies this
      ensures View() == TakeMcp(config, old(View()), m, writes)
    {
      hide Trim, SendResult, Emit;
      if !resultsOpen {
        if !writes {
          ReturnError();
        }
        return;
      }
      var id := Trim(m.toolCallId);
      if id == "" {
        ReturnError();
        return;
      }
      if id !in pendingTools && |pendingTools| >= MAX_PENDING {
        ReturnError();
        return;
      }
      if id !in pendingTools && config.maxParallel > 0 && |pendingTools| >= config.maxParallel {
        ReturnError();
        return;
      }
      streamMCP := streamMCP - {id};
      var call := ToolCall(m.messageId, m.execId, id, m.name, m.arguments);
      pendingTools := pendingTools[id := call];
      if id in queuedResults {
        var queued := queuedResults[id];
        queuedResults := queuedResults - {id};
        SendToolResult(queued, writes);
        return;
      }
      AnnounceCall(call);
    }

    // A new call goes to the client; a history run ends with it.
    method AnnounceCall(call: ToolCall)
      modifies this
      ensures View() == var u := Emit(old(View()), NO_EVENT.(kind := ToolCallEvent, toolCall := Some(call)));
                        if config.history then Finish(u)
                        else if config.maxParallel == 1 && !u.parked then Emit(u.(parked := true), NO_EVENT.(kind := TurnEnded))
                        else u
    {
      hide Emit;
      EmitEvent(NO_EVENT.(kind := ToolCallEvent, toolCall := Some(call)));
      if config.history {
        EmitEvent(NO_EVENT.(kind := Done));
        status := Returned(true);
      } else if config.maxParallel == 1 && !parkSignaled {
        parkSignaled := true;
        EmitEvent(NO_EVENT.(kind := TurnEnded));
      }
    }

    method OnTurnEnd(usage: Option<UsageObservation>)
      modifies this
      ensures View() == EndTurn(old(View()), usage)
    {
      hide Emit;
      turnEnded := true;
      var observed := Usage(false, TurnEndedUsage, NO_COUNT, NO_COUNT, NO_COUNT, NO_COUNT, NO_COUNT, NO_COUNT);
      if usage.Some? {
        observed := usage.value;
      }
      EmitEvent(NO_EVENT.(kind := UsageObserved, usage := Some(observed)));
      if pendingTools != map[] && !parkSignaled {
        parkSignaled := true;
        EmitEvent(NO_EVENT.(kind := TurnEnded));
      }
    }

    method OnHosted(completed: bool, given: Option<HostedSearch>, callId: string)
      modifies this
      ensures View() == ApplyHosted(config, old(View()), completed, given, callId)
    {
      hide Emit, Trim, MergeSearch, ArgsReady, IsSearch, IsFetch;
      if given.None? {
        ReturnError();
        return;
      }
      var search := given.value;
      if !IsSearch(search) && !IsFetch(search) {
        ReturnError();
        return;
      }
      if (IsSearch(search) && !config.allowSearch) || (IsFetch(search) && !config.allowFetch) {
        ReturnError();
        return;
      }
      var id := Trim(search.callId);
      if id == "" {
        id := Trim(callId);
        search := search.(callId := id);
      }
      if id == "" {
        ReturnError();
        return;
      }
      var previouslyReady := id in openHosted && ArgsReady(openHosted[id]);
      if id in openHosted {
        search := MergeSearch(openHosted[id], search);
      }
      if completed {
        openHosted := openHosted - {id};
        EmitEvent(NO_EVENT.(kind := HostedSearchCompleted, search := Some(search)));
        return;
      }
      openHosted := openHosted[id := search];
      if ArgsReady(search) && !previouslyReady {
        EmitEvent(NO_EVENT.(kind := HostedSearchStarted, search := Some(search)));
      }
    }

    method OnStreamed(toolName: string, toolCallId: string, callId: string)
      modifies this`streamMCP
      ensures View() == RecordStreamed(config, old(View()), toolName, toolCallId, callId)
    {
      hide Trim;
      var name, id := Trim(toolName), Trim(toolCallId);
      if id == "" {
        id := Trim(callId);
      }
      if name != "" && id != "" && name in config.tools && id !in pendingTools {
        streamMCP := streamMCP + {id};
      }
    }

    method OnMessage(m: ServerMessage, writes: bool)
      modifies this
      ensures View() == TakeMessage(config, old(View()), m, writes)
    {
      hide Emit, ApplyHosted, RecordStreamed, EndTurn, TakeMcp;
      match m {
        case TextDelta(text) =>
          if text != "" {
            EmitEvent(NO_EVENT.(kind := Text, text := text));
          }
        case ThinkingDelta(text) =>
          if text != "" {
            EmitEvent(NO_EVENT.(kind := Thinking, text := text));
          }
        case ThinkingEnd => EmitEvent(NO_EVENT.(kind := ThinkingCompleted));
        case HostedTool(completed, search, callId) => OnHosted(completed, search, callId);
        case Ignored =>
        case StreamMcp(toolName, toolCallId, callId) => OnStreamed(toolName, toolCallId, callId);
        case Reply(encodes) =>
          if !encodes || !writes {
            ReturnError();
          }
        case Interaction(encodes, newUse) =>
          if !encodes || !writes {
            ReturnError();
          } else if newUse {
            EmitEvent(NO_EVENT.(kind := HostedSearchCall));
          }
        case ExecAbort => ReturnError();
        case TokenDelta(tokens, usage) => EmitEvent(NO_EVENT.(kind := UsageDelta, tokens := tokens, usage := usage));
        case CheckpointData(checkpoint) => EmitEvent(NO_EVENT.(kind := Checkpoint, checkpoint := checkpoint, blobs := blobStore));
        case TurnEnd(usage) => OnTurnEnd(usage);
        case KvSet(key, value, fits) =>
          if fits {
            blobStore := blobStore[key := value];
          }
          if !fits || !writes {
            ReturnError();
          }
        case Mcp(_, _, _, _, _) => OnMcp(m, writes);
        case UnsupportedExec => ReturnError();
      }
    }

    method OnInput(input: Input, writes: bool)
      requires status == Running
      modifies this
      ensures View() == Step(config, old(View()), input, writes)
    {
      hide TakeResult, TakeMessage, Emit;
      match input {
        case ContextDone => ReturnError();
        case Idle =>
          if pendingTools == map[] {
            ReturnError();
          }
        case Result(result) => OnResult(result, writes);
        case ResultsClosed => resultsOpen := false;
        case Broken => ReturnError();
        case EndStream(trailerOk) =>
          if trailerOk && MayFinish(config, View()) {
            EmitEvent(NO_EVENT.(kind := Done));
            status := Returned(true);
          } else {
            ReturnError();
          }
        case Server(message) => OnMessage(message, writes);
      }
    }
  }

  // Run over the inputs that arrive until it returns.
  method RunAgent(c: Config, blobs: map<string, string>, resultsOpen: bool, inputs: seq<(Input, bool)>)
    returns (events: seq<Event>, status: Status)
    ensures var s := Run(c, NewLoop(blobs, resultsOpen), inputs); events == s.trace && status == s.status
    ensures forall i :: 0 <= i < |events| && events[i].kind == Done ==> i == |events| - 1 && status == Returned(true)
  {
    hide Step, NewLoop, MayFinish, HostedRuns, TurnSeen;
    var run := new AgentRun(c, blobs, resultsOpen);
    for k := 0 to |inputs|
      invariant run.View() == Run(c, NewLoop(blobs, resultsOpen), inputs[..k]) && run.config == c
    {
      assert inputs[..k + 1][..k] == inputs[..k];
      if run.status == Running {
        run.OnInput(inputs[k].0, inputs[k].1);
      } else {
        ReturnedStays(c, run.View(), inputs[k].0, inputs[k].1);
      }
    }
    assert inputs[..|inputs|] == inputs;
    events, status := run.emitted, run.status;
    forall i | 0 <= i < |events| && events[i].kind == Done
      ensures i == |events| - 1 && status == Returned(true)
    {
      DoneIsLast(c, blobs, resultsOpen, inputs, i);
    }
  }

  lemma ReturnedStays(c: Config, s: Loop, input: Input, writes: bool)
    requires s.status != Running
    ensures Step(c, s, input, writes) == s
  {}
}
