// The Responses half of claudeProjection as the source writes it: every method
// updates the fields and numbers the events it returns.
module ResponsesStreams {
  import opened Events
  import opened Usages
  import opened Strings
  import C = ClaudeProjections
  import opened ResponsesProjections

  datatype Chunk = Chunk(sequence: nat, payload: Payload)

  // The payloads with the sequence numbers that follow `from`.
  function Number(from: nat, payloads: seq<Payload>): (chunks: seq<Chunk>)
    ensures |chunks| == |payloads|
  {
    seq(|payloads|, k requires 0 <= k < |payloads| => Chunk(from + 1 + k, payloads[k]))
  }

  lemma NumberOfNothing(from: nat)
    ensures Number(from, []) == []
  {}

  lemma NumberOfConcatenation(from: nat, a: seq<Payload>, b: seq<Payload>)
    ensures Number(from, a + b) == Number(from, a) + Number(from + |a|, b)
  {}

  class ResponsesProjection {
    const lib: C.Libraries
    const response: string
    var semantic: bool
    var toolCalls: seq<ToolCall>
    var responsesSeq: nat
    var responsesOut: nat
    var respSpan: nat
    var respStarted: bool
    var respReasoningOpen: bool
    var respReasoningIndex: nat
    var respReasoningID: string
    var respReasoning: string
    var respMessageOpen: bool
    var respMessageIndex: nat
    var respMessageID: string
    var respText: string
    var respByIndex: map<nat, OutputItem>
    var respSearchIndex: map<string, nat>
    var citations: seq<C.Citation>
    var facts: Facts

    function View(): Projection
      reads this
    {
      Projection(response, semantic, toolCalls, respStarted, responsesOut, respSpan, respReasoningOpen, respReasoningIndex,
                 respReasoningID, respReasoning, respMessageOpen, respMessageIndex, respMessageID, respText, respByIndex,
                 respSearchIndex, citations, facts)
    }

    // The fields moved to the state of `o`, and its payloads were numbered on.
    twostate predicate Did(o: Out, chunks: seq<Chunk>)
      reads this
    {
      View() == o.state && chunks == Number(old(responsesSeq), o.payloads) && responsesSeq == old(responsesSeq) + |chunks|
    }

    constructor (lib: C.Libraries, response: string, measured: bool)
      ensures View() == NewProjection(response, measured) && responsesSeq == 0 && this.lib == lib
    {
      this.lib, this.response := lib, response;
      semantic, toolCalls, responsesSeq, responsesOut, respSpan, respStarted := false, [], 0, 0, 0, false;
      respReasoningOpen, respReasoningIndex, respReasoningID, respReasoning := false, 0, "", "";
      respMessageOpen, respMessageIndex, respMessageID, respText := false, 0, "", "";
      respByIndex, respSearchIndex, citations, facts := map[], map[], [], NewFacts(measured);
    }

    method NextSequence() returns (n: nat)
      modifies this`responsesSeq
      ensures n == responsesSeq == old(responsesSeq) + 1
    {
      responsesSeq := responsesSeq + 1;
      return responsesSeq;
    }

    // Events take the next sequence numbers in the order they are built.
    method Emit(payloads: seq<Payload>) returns (chunks: seq<Chunk>)
      modifies this`responsesSeq
      ensures Did(Out(old(View()), payloads), chunks)
    {
      chunks := [];
      for k := 0 to |payloads|
        invariant chunks == Number(old(responsesSeq), payloads)[..k] && responsesSeq == old(responsesSeq) + k
      {
        var next := NextSequence();
        chunks := chunks + [Chunk(next, payloads[k])];
      }
    }

    method NextOutput() returns (index: nat)
      modifies this`responsesOut
      ensures index == old(responsesOut) && responsesOut == index + 1
    {
      index := responsesOut;
      responsesOut := responsesOut + 1;
    }

    method Store(index: nat, item: OutputItem)
      modifies this`respByIndex
      ensures respByIndex == old(respByIndex)[index := item]
    {
      respByIndex := respByIndex[index := item];
    }

    method StartResponse() returns (chunks: seq<Chunk>)
      modifies this
      ensures Did(Start(old(View())), chunks)
    {
      if respStarted {
        return [];
      }
      respStarted := true;
      chunks := Emit([ResponseCreated, ResponseInProgress]);
    }

    method OpenReasoning() returns (chunks: seq<Chunk>)
      modifies this
      ensures Did(EnsureReasoning(old(View())), chunks)
    {
      hide ItemId, Number;
      ghost var o := EnsureReasoning(View());
      if respReasoningOpen {
        return [];
      }
      respSpan := respSpan + 1;
      respReasoningOpen, respReasoningIndex, responsesOut := true, responsesOut, responsesOut + 1;
      respReasoningID := ItemId("rs_", response, respSpan);
      assert View() == o.state;
      var opening := ItemAdded(respReasoningIndex, ReasoningItem(respReasoningID, ""));
      chunks := Emit([opening, PartAdded(ReasoningKind, respReasoningID, respReasoningIndex)]);
    }

    method StopReasoning() returns (chunks: seq<Chunk>)
      modifies this
      ensures Did(CloseReasoning(old(View())), chunks)
    {
      if !respReasoningOpen {
        return [];
      }
      respReasoningOpen := false;
      var text := respReasoning;
      respReasoning := "";
      var item := ReasoningItem(respReasoningID, text);
      Store(respReasoningIndex, item);
      chunks := Emit([
        TextDone(ReasoningKind, respReasoningID, respReasoningIndex, text),
        PartDone(ReasoningKind, respReasoningID, respReasoningIndex, text, []),
        ItemDone(respReasoningIndex, item)
      ]);
    }

    method OpenMessage() returns (chunks: seq<Chunk>)
      modifies this
      ensures Did(EnsureMessage(old(View())), chunks)
    {
      hide ItemId, Number;
      ghost var o := EnsureMessage(View());
      if respMessageOpen {
        return [];
      }
      respSpan := respSpan + 1;
      respMessageOpen, respMessageIndex, responsesOut := true, responsesOut, responsesOut + 1;
      respMessageID := ItemId("msg_", response, respSpan);
      assert View() == o.state;
      var opening := ItemAdded(respMessageIndex, MessageItem(respMessageID, "", []));
      chunks := Emit([opening, PartAdded(MessageKind, respMessageID, respMessageIndex)]);
    }

    method TextAnnotations() returns (annotations: seq<Annotation>)
      ensures annotations == Annotations(lib, citations)
    {
      hide Trim;
      annotations := [];
      for k := 0 to |citations|
        invariant annotations == Annotations(lib, citations[..k])
      {
        assert citations[..k + 1][..k] == citations[..k];
        var url := Trim(citations[k].url);
        if lib.usable(url) {
          annotations := annotations + [UrlCitation(url, Trim(citations[k].title))];
        }
      }
      assert citations[..|citations|] == citations;
    }

    method StopMessage() returns (chunks: seq<Chunk>)
      modifies this
      ensures Did(CloseMessage(lib, old(View())), chunks)
    {
      hide Annotations;
      if !respMessageOpen {
        return [];
      }
      respMessageOpen := false;
      var text := respText;
      respText := "";
      var annotations := TextAnnotations();
      var item := MessageItem(respMessageID, text, annotations);
      Store(respMessageIndex, item);
      chunks := Emit([
        TextDone(MessageKind, respMessageID, respMessageIndex, text),
        PartDone(MessageKind, respMessageID, respMessageIndex, text, annotations),
        ItemDone(respMessageIndex, item)
      ]);
    }

    // The message start and the closing of open items that precede most items.
    method SettleResponse() returns (chunks: seq<Chunk>)
      modifies this
      ensures Did(Settle(lib, old(View())), chunks)
    {
      hide Start, CloseReasoning, CloseMessage;
      var a := StartResponse();
      var b := StopReasoning();
      var c := StopMessage();
      return a + b + c;
    }

    method ProjectText(more: string) returns (chunks: seq<Chunk>)
      modifies this
      ensures Did(EmitText(old(View()), more), chunks)
    {
      hide Start, CloseReasoning, EnsureMessage, Number;
      semantic := true;
      ghost var n, x := responsesSeq, Start(View());
      ghost var y := CloseReasoning(x.state);
      ghost var z := EnsureMessage(y.state);
      var a := StartResponse();
      var b := StopReasoning();
      var c := OpenMessage();
      respText := respText + more;
      var last := Emit([Delta(MessageKind, respMessageID, respMessageIndex, more)]);
      NumberOfConcatenation(n, x.payloads, y.payloads);
      NumberOfConcatenation(n, x.Then(y).payloads, z.payloads);
      NumberOfConcatenation(n, x.Then(y).Then(z).payloads, [Delta(MessageKind, respMessageID, respMessageIndex, more)]);
      return a + b + c + last;
    }

    method ProjectThinking(more: string) returns (chunks: seq<Chunk>)
      modifies this
      ensures Did(EmitThinking(lib, old(View()), more), chunks)
    {
      hide Start, CloseMessage, EnsureReasoning, Number;
      semantic := true;
      ghost var n, x := responsesSeq, Start(View());
      ghost var y := CloseMessage(lib, x.state);
      ghost var z := EnsureReasoning(y.state);
      var a := StartResponse();
      var b := StopMessage();
      var c := OpenReasoning();
      respReasoning := respReasoning + more;
      var last := Emit([Delta(ReasoningKind, respReasoningID, respReasoningIndex, more)]);
      NumberOfConcatenation(n, x.payloads, y.payloads);
      NumberOfConcatenation(n, x.Then(y).payloads, z.payloads);
      NumberOfConcatenation(n, x.Then(y).Then(z).payloads, [Delta(ReasoningKind, respReasoningID, respReasoningIndex, more)]);
      return a + b + c + last;
    }

    method AnnounceSearch(id: string, action: Action) returns (chunks: seq<Chunk>)
      modifies this
      ensures Did(AddSearch(old(View()), id, action), chunks)
    {
      var index := NextOutput();
      respSearchIndex := respSearchIndex[id := index];
      chunks := Emit([
        ItemAdded(index, SearchItem(id, action)),
        SearchProgress(id, index, Progressing),
        SearchProgress(id, index, Searching)
      ]);
    }

    method ProjectSearchStarted(search: HostedSearch) returns (chunks: seq<Chunk>)
      modifies this
      ensures Did(SearchStarted(lib, old(View()), search), chunks)
    {
      hide SearchId, SearchAction, Settle, AddSearch;
      var id := SearchId(search);
      if id in respSearchIndex {
        return [];
      }
      var a := SettleResponse();
      var b := AnnounceSearch(id, SearchAction(lib, search));
      return a + b;
    }

    method ProjectSearchCompleted(search: HostedSearch) returns (chunks: seq<Chunk>)
      modifies this
      ensures Did(SearchCompleted(lib, old(View()), search), chunks)
    {
      hide SearchId, SearchAction, SearchStarted, C.SearchCitations;
      var a := ProjectSearchStarted(search);
      var id := SearchId(search);
      var index := respSearchIndex[id];
      var item := SearchItem(id, SearchAction(lib, search));
      Store(index, item);
      citations := citations + C.SearchCitations(lib, search);
      var last := Emit([SearchProgress(id, index, Completed), ItemDone(index, item)]);
      return a + last;
    }

    method ProjectFunctionCall(call: ToolCall) returns (chunks: seq<Chunk>)
      modifies this
      ensures Did(FunctionCall(old(View()), call), chunks)
    {
      var index := NextOutput();
      var arguments := call.arguments;
      if arguments == "" {
        arguments := "{}";
      }
      var id := "fc_" + call.toolCallId;
      var item := FunctionItem(id, call.toolCallId, call.name, arguments);
      Store(index, item);
      chunks := Emit([
        ItemAdded(index, item.(arguments := "")),
        Delta(FunctionKind, id, index, arguments),
        TextDone(FunctionKind, id, index, arguments),
        ItemDone(index, item)
      ]);
    }

    method ProjectFunctionCalls(calls: seq<ToolCall>) returns (chunks: seq<Chunk>)
      modifies this
      ensures Did(FunctionCalls(old(View()), calls), chunks)
    {
      hide FunctionCall;
      chunks := [];
      for k := 0 to |calls|
        invariant Did(FunctionCalls(old(View()), calls[..k]), chunks)
      {
        assert calls[..k + 1][..k] == calls[..k];
        var more := ProjectFunctionCall(calls[k]);
        chunks := chunks + more;
      }
      assert calls[..|calls|] == calls;
    }

    method OutputItems() returns (items: seq<OutputItem>)
      ensures items == OutputList(respByIndex, responsesOut)
    {
      items := [];
      for k := 0 to responsesOut
        invariant items == OutputList(respByIndex, k)
      {
        if k in respByIndex {
          items := items + [respByIndex[k]];
        }
      }
    }

    method FinishResponse() returns (chunks: seq<Chunk>)
      modifies this`responsesSeq
      ensures Did(Out(old(View()), Finish(old(View()))), chunks)
    {
      hide OutputList;
      var items := OutputItems();
      chunks := Emit([ResponseCompleted(items, facts)]);
    }

    method HandleEvent(e: Event) returns (chunks: seq<Chunk>, status: C.Status)
      modifies this
      ensures var o := Handle(lib, old(View()), e); Did(Out(o.state, o.payloads), chunks) && status == o.status
    {
      hide Observe, EmitText, EmitThinking, CloseReasoning, SearchStarted, SearchCompleted, FunctionCalls, Settle,
          Finish, Number;
      NumberOfNothing(responsesSeq);
      facts := Observe(facts, e);
      chunks, status := [], C.Running;
      match e.kind {
        case HostedSearchStarted =>
          semantic := true;
          if e.search.Some? {
            chunks := ProjectSearchStarted(e.search.value);
          }
        case HostedSearchCompleted =>
          semantic := true;
          if e.search.Some? {
            chunks := ProjectSearchCompleted(e.search.value);
          }
        case ToolCallEvent =>
          if e.toolCall.Some? {
            semantic := true;
            toolCalls := toolCalls + [e.toolCall.value];
          }
        case Text => chunks := ProjectText(e.text);
        case Thinking =>
          if e.text != "" {
            chunks := ProjectThinking(e.text);
          }
        case ThinkingCompleted => chunks := StopReasoning();
        case TurnEnded =>
          if |toolCalls| == 0 {
            status := C.Failed;
          } else {
            chunks := HandOffCalls();
            status := C.Finished(true);
          }
        case Done =>
          chunks := CloseAndFinish();
          status := C.Finished(false);
        case _ =>
      }
    }

    method CloseAndFinish() returns (chunks: seq<Chunk>)
      modifies this
      ensures var o := Settle(lib, old(View())); Did(Out(o.state, o.payloads + Finish(o.state)), chunks)
    {
      hide Settle, Finish;
      var a := SettleResponse();
      var b := FinishResponse();
      return a + b;
    }

    method HandOffCalls() returns (chunks: seq<Chunk>)
      modifies this
      ensures var a := Settle(lib, old(View()));
              var o := a.Then(FunctionCalls(a.state, old(toolCalls)));
              Did(Out(o.state, o.payloads + Finish(o.state)), chunks)
    {
      hide Settle, FunctionCalls, Finish;
      var calls := toolCalls;
      var a := SettleResponse();
      var b := ProjectFunctionCalls(calls);
      var c := FinishResponse();
      return a + b + c;
    }
  }

  // A whole response: events up to the first terminal, numbered 1, 2, 3, ...
  method StreamEvents(lib: C.Libraries, response: string, measured: bool, events: seq<Event>)
    returns (chunks: seq<Chunk>, status: C.Status)
    ensures var s := Run(lib, NewSession(response, measured), events);
            chunks == Number(0, s.stream) && status == s.status
  {
    hide Handle;
    var p := new ResponsesProjection(lib, response, measured);
    chunks, status := [], C.Running;
    for k := 0 to |events|
      invariant var s := Run(lib, NewSession(response, measured), events[..k]);
                && p.View() == s.p && status == s.status && chunks == Number(0, s.stream)
      invariant p.lib == lib && p.responsesSeq == |chunks|
    {
      assert events[..k + 1][..k] == events[..k];
      if status == C.Running {
        var more;
        more, status := p.HandleEvent(events[k]);
        chunks := chunks + more;
      }
    }
    assert events[..|events|] == events;
  }
}
