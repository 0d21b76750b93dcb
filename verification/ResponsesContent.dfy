// project_responses.go: what an answer holds, in terms of the events that went in.
module ResponsesContents {
  import opened Events
  import Usages
  import C = ClaudeProjections
  import D = ClaudeContents
  import opened ResponsesProjections

  // ---------------------------------------------------------------------
  // What the events say
  // ---------------------------------------------------------------------

  function ThinkingSaid(events: seq<Event>): string {
    if events == [] then ""
    else
      var e := events[|events| - 1];
      ThinkingSaid(events[..|events| - 1]) + if e.kind == Thinking then e.text else ""
  }

  function SearchesSaid(events: seq<Event>): set<string> {
    set e | e in events && D.IsSearch(e) :: SearchId(e.search.value)
  }

  // What the last completion of a search says.
  function LastResult(lib: C.Libraries, events: seq<Event>, id: string): Option<OutputItem> {
    if events == [] then None
    else
      var e := events[|events| - 1];
      if e.kind == HostedSearchCompleted && e.search.Some? && SearchId(e.search.value) == id
      then Some(SearchItem(id, SearchAction(lib, e.search.value)))
      else LastResult(lib, events[..|events| - 1], id)
  }

  // ---------------------------------------------------------------------
  // What an answer holds
  // ---------------------------------------------------------------------

  // All message text, all reasoning, and the function calls in order.
  datatype View = View(text: string, thinking: string, calls: seq<(string, string, string)>)

  function With(v: View, item: OutputItem): View {
    match item
    case MessageItem(_, text, _) => v.(text := v.text + text)
    case ReasoningItem(_, text) => v.(thinking := v.thinking + text)
    case FunctionItem(_, callId, name, arguments) => v.(calls := v.calls + [(callId, name, arguments)])
    case SearchItem(_, _) => v
  }

  function ViewOf(items: seq<OutputItem>): View {
    if items == [] then View("", "", []) else With(ViewOf(items[..|items| - 1]), items[|items| - 1])
  }

  lemma OneMore(items: seq<OutputItem>, item: OutputItem)
    ensures ViewOf(items + [item]) == With(ViewOf(items), item)
  {
    assert (items + [item])[..|items|] == items;
  }

  lemma {:induction false} SameBelow(m: map<nat, OutputItem>, i: nat, item: OutputItem, n: nat)
    requires n <= i
    ensures OutputList(m[i := item], n) == OutputList(m, n)
  {
    if n > 0 {
      SameBelow(m, i, item, n - 1);
    }
  }

  lemma AddedLast(m: map<nat, OutputItem>, i: nat, item: OutputItem)
    requires i !in m
    ensures OutputList(m[i := item], i + 1) == OutputList(m, i) + [item] && OutputList(m, i + 1) == OutputList(m, i)
  {
    SameBelow(m, i, item, i);
  }

  // A search shows neither text nor calls, wherever it is put.
  lemma {:induction false} SearchIsUnseen(m: map<nat, OutputItem>, i: nat, item: OutputItem, n: nat)
    requires item.SearchItem? && (i in m ==> m[i].SearchItem?)
    ensures ViewOf(OutputList(m[i := item], n)) == ViewOf(OutputList(m, n))
  {
    hide ViewOf;
    if n > 0 {
      SearchIsUnseen(m, i, item, n - 1);
      if n - 1 in m {
        OneMore(OutputList(m, n - 1), m[n - 1]);
      }
      if n - 1 == i || n - 1 in m {
        OneMore(OutputList(m[i := item], n - 1), m[i := item][n - 1]);
      }
      assert forall s: seq<OutputItem> :: s + [] == s;
    }
  }

  lemma {:induction false} ListHolds(m: map<nat, OutputItem>, n: nat, item: OutputItem)
    ensures item in OutputList(m, n) <==> exists i :: i in m && i < n && m[i] == item
  {
    if n > 0 {
      ListHolds(m, n - 1, item);
    }
  }

  // ---------------------------------------------------------------------
  // The projection at work
  // ---------------------------------------------------------------------

  function Shown(p: Projection): View {
    var v := ViewOf(OutputList(p.byIndex, p.out));
    v.(text := v.text + p.text, thinking := v.thinking + p.reasoning)
  }

  // The indices below the item that is open.
  function Settled(p: Projection): nat {
    if (p.messageOpen || p.reasoningOpen) && p.out > 0 then p.out - 1 else p.out
  }

  // An open item has the last index and is not stored yet; a search keeps the index
  // it was announced at, and nothing else is stored there.
  predicate Shape(p: Projection) {
    && !(p.messageOpen && p.reasoningOpen) && (!p.messageOpen ==> p.text == "") && (!p.reasoningOpen ==> p.reasoning == "")
    && (p.messageOpen ==> p.messageIndex + 1 == p.out) && (p.reasoningOpen ==> p.reasoningIndex + 1 == p.out)
    && (forall i :: i in p.byIndex ==> i < Settled(p))
    && (forall id :: id in p.searchIndex ==> p.searchIndex[id] < Settled(p))
    && (forall id :: id in p.searchIndex && p.searchIndex[id] in p.byIndex ==>
          p.byIndex[p.searchIndex[id]].SearchItem? && p.byIndex[p.searchIndex[id]].id == id)
    && (forall i :: i in p.byIndex && p.byIndex[i].SearchItem? ==>
          p.byIndex[i].id in p.searchIndex && p.searchIndex[p.byIndex[i].id] == i)
    && (forall a, b :: a in p.searchIndex && b in p.searchIndex && p.searchIndex[a] == p.searchIndex[b] ==> a == b)
  }

  function ResultAt(p: Projection, id: string): Option<OutputItem> {
    if id in p.searchIndex then Get(p.byIndex, p.searchIndex[id]) else None
  }

  // Opening and closing items moves what is shown, and changes none of it.
  ghost predicate Same(p: Projection, q: Projection) {
    && Shape(q) && Shown(q) == Shown(p) && q.toolCalls == p.toolCalls && q.citations == p.citations
    && q.searchIndex == p.searchIndex && forall id :: ResultAt(q, id) == ResultAt(p, id)
  }

  ghost predicate Tells(lib: C.Libraries, p: Projection, events: seq<Event>) {
    && Shape(p) && Shown(p) == View(D.TextSaid(events), ThinkingSaid(events), [])
    && p.toolCalls == D.CallsSaid(events) && p.citations == D.CitationsSaid(lib, events)
    && p.searchIndex.Keys == SearchesSaid(events) && forall id :: ResultAt(p, id) == LastResult(lib, events, id)
  }

  lemma StartShows(p: Projection)
    requires Shape(p)
    ensures Same(p, Start(p).state)
  {
    hide ViewOf, OutputList;
  }

  lemma CloseReasoningShows(p: Projection)
    requires Shape(p)
    ensures var q := CloseReasoning(p).state; Same(p, q) && !q.reasoningOpen && q.messageOpen == p.messageOpen
  {
    hide ViewOf, OutputList;
    if p.reasoningOpen {
      var item := ReasoningItem(p.reasoningId, p.reasoning);
      AddedLast(p.byIndex, p.reasoningIndex, item);
      OneMore(OutputList(p.byIndex, p.reasoningIndex), item);
    }
  }

  lemma CloseMessageShows(lib: C.Libraries, p: Projection)
    requires Shape(p)
    ensures var q := CloseMessage(lib, p).state; Same(p, q) && !q.messageOpen && q.reasoningOpen == p.reasoningOpen
  {
    hide ViewOf, OutputList, Annotations;
    if p.messageOpen {
      var item := MessageItem(p.messageId, p.text, Annotations(lib, p.citations));
      AddedLast(p.byIndex, p.messageIndex, item);
      OneMore(OutputList(p.byIndex, p.messageIndex), item);
    }
  }

  lemma EnsureMessageShows(p: Projection)
    requires Shape(p) && !p.reasoningOpen
    ensures var q := EnsureMessage(p).state; Same(p, q) && q.messageOpen && !q.reasoningOpen
  {
    hide ViewOf;
    if !p.messageOpen {
      assert p.out !in p.byIndex;
      assert OutputList(p.byIndex, p.out) + [] == OutputList(p.byIndex, p.out);
    }
  }

  lemma EnsureReasoningShows(p: Projection)
    requires Shape(p) && !p.messageOpen
    ensures var q := EnsureReasoning(p).state; Same(p, q) && q.reasoningOpen && !q.messageOpen
  {
    hide ViewOf;
    if !p.reasoningOpen {
      assert p.out !in p.byIndex;
      assert OutputList(p.byIndex, p.out) + [] == OutputList(p.byIndex, p.out);
    }
  }

  lemma SettleShows(lib: C.Libraries, p: Projection)
    requires Shape(p)
    ensures var q := Settle(lib, p).state; Same(p, q) && !q.messageOpen && !q.reasoningOpen
  {
    hide Shape, Shown, ResultAt, Start, CloseReasoning, CloseMessage;
    StartShows(p);
    var a := Start(p);
    CloseReasoningShows(a.state);
    var b := CloseReasoning(a.state);
    CloseMessageShows(lib, b.state);
  }

  lemma LastSaid(lib: C.Libraries, events: seq<Event>, e: Event)
    ensures var all := events + [e];
            && ThinkingSaid(all) == ThinkingSaid(events) + (if e.kind == Thinking then e.text else "")
            && SearchesSaid(all) == SearchesSaid(events) + (if D.IsSearch(e) then {SearchId(e.search.value)} else {})
            && forall id :: LastResult(lib, all, id)
                 == if e.kind == HostedSearchCompleted && e.search.Some? && SearchId(e.search.value) == id
                    then Some(SearchItem(id, SearchAction(lib, e.search.value))) else LastResult(lib, events, id)
  {
    hide SearchId, SearchAction;
    var all := events + [e];
    assert all[..|events|] == events;
    assert forall x :: x in all <==> x in events || x == e;
  }

  // The state after an event that is not about a search shows what it said.
  lemma EventTells(lib: C.Libraries, p: Projection, q: Projection, events: seq<Event>, e: Event)
    requires Tells(lib, p, events) && !D.IsSearch(e) && Shape(q)
    requires Shown(q) == View(Shown(p).text + (if e.kind == Text then e.text else ""),
                              Shown(p).thinking + (if e.kind == Thinking then e.text else ""), [])
    requires q.toolCalls == p.toolCalls + if e.kind == ToolCallEvent && e.toolCall.Some? then [e.toolCall.value] else []
    requires q.citations == p.citations && q.searchIndex == p.searchIndex && forall id :: ResultAt(q, id) == ResultAt(p, id)
    ensures Tells(lib, q, events + [e])
  {
    hide Shape, Shown, ResultAt, ThinkingSaid, SearchesSaid, LastResult;
    hide D.TextSaid, D.CallsSaid, D.CitationsSaid, D.Unsigned, D.Signed, D.SearchBlocks, D.SearchesSaid;
    LastSaid(lib, events, e);
    D.LastSaid(lib, events, e);
    D.LastSearch(lib, events, e);
    assert forall s: seq<C.Citation> :: s + [] == s;
  }

  lemma TextStep(lib: C.Libraries, p: Projection, events: seq<Event>, e: Event)
    requires Tells(lib, p, events) && e.kind == Text
    ensures Tells(lib, EmitText(p, e.text).state, events + [e])
  {
    hide Tells, Shape, Shown, ResultAt, Start, CloseReasoning, EnsureMessage;
    TellsShape(lib, p, events);
    var p1 := p.(semantic := true);
    SameLooks(p, p1);
    StartShows(p1);
    var a := Start(p1);
    CloseReasoningShows(a.state);
    var b := CloseReasoning(a.state);
    EnsureMessageShows(b.state);
    var q := EnsureMessage(b.state).state;
    TextAdds(q, e.text);
    var t := EmitText(p, e.text).state;
    assert t == q.(text := q.text + e.text);
    assert Shown(p).thinking + "" == Shown(p).thinking;
    assert p.toolCalls + [] == p.toolCalls;
    EventTells(lib, p, t, events, e);
  }

  lemma TellsShape(lib: C.Libraries, p: Projection, events: seq<Event>)
    requires Tells(lib, p, events)
    ensures Shape(p) && Shown(p).calls == []
  {
    hide Shape, Shown;
  }

  lemma SameLooks(p: Projection, q: Projection)
    requires Shape(p) && q == p.(semantic := q.semantic, facts := q.facts, toolCalls := q.toolCalls)
    ensures Shape(q) && Shown(q) == Shown(p) && forall id :: ResultAt(q, id) == ResultAt(p, id)
  {
    hide ViewOf, OutputList;
  }

  lemma TextAdds(p: Projection, text: string)
    requires Shape(p) && p.messageOpen
    ensures var q := p.(text := p.text + text);
            Shape(q) && Shown(q) == Shown(p).(text := Shown(p).text + text) && forall id :: ResultAt(q, id) == ResultAt(p, id)
  {
    hide OutputList, ViewOf;
    var said := ViewOf(OutputList(p.byIndex, p.out)).text;
    assert said + (p.text + text) == said + p.text + text;
  }

  lemma ThinkingAdds(p: Projection, text: string)
    requires Shape(p) && p.reasoningOpen
    ensures var q := p.(reasoning := p.reasoning + text);
            Shape(q) && Shown(q) == Shown(p).(thinking := Shown(p).thinking + text) && forall id :: ResultAt(q, id) == ResultAt(p, id)
  {
    hide OutputList, ViewOf;
    var said := ViewOf(OutputList(p.byIndex, p.out)).thinking;
    assert said + (p.reasoning + text) == said + p.reasoning + text;
  }

  lemma ThinkingStep(lib: C.Libraries, p: Projection, events: seq<Event>, e: Event)
    requires Tells(lib, p, events) && e.kind == Thinking
    ensures Tells(lib, EmitThinking(lib, p, e.text).state, events + [e])
  {
    hide Tells, Shape, Shown, ResultAt, Start, CloseMessage, EnsureReasoning;
    TellsShape(lib, p, events);
    var p1 := p.(semantic := true);
    SameLooks(p, p1);
    StartShows(p1);
    var a := Start(p1);
    CloseMessageShows(lib, a.state);
    var b := CloseMessage(lib, a.state);
    EnsureReasoningShows(b.state);
    var q := EnsureReasoning(b.state).state;
    ThinkingAdds(q, e.text);
    var t := EmitThinking(lib, p, e.text).state;
    assert t == q.(reasoning := q.reasoning + e.text);
    assert Shown(p).text + "" == Shown(p).text;
    assert p.toolCalls + [] == p.toolCalls;
    EventTells(lib, p, t, events, e);
  }

  lemma AddSearchShows(p: Projection, id: string, action: Action)
    requires Shape(p) && !p.messageOpen && !p.reasoningOpen && id !in p.searchIndex
    ensures var q := AddSearch(p, id, action).state;
            && Shape(q) && Shown(q) == Shown(p) && q.toolCalls == p.toolCalls && q.citations == p.citations
            && q.searchIndex.Keys == p.searchIndex.Keys + {id} && forall k :: ResultAt(q, k) == ResultAt(p, k)
  {
    hide ViewOf;
    assert p.out !in p.byIndex;
    assert OutputList(p.byIndex, p.out) + [] == OutputList(p.byIndex, p.out);
  }

  lemma AnnouncementShows(lib: C.Libraries, p: Projection, s: HostedSearch)
    requires Shape(p)
    ensures var q := SearchStarted(lib, p, s).state;
            && Shape(q) && Shown(q) == Shown(p) && q.toolCalls == p.toolCalls && q.citations == p.citations
            && q.searchIndex.Keys == p.searchIndex.Keys + {SearchId(s)} && forall k :: ResultAt(q, k) == ResultAt(p, k)
  {
    hide Shape, Shown, ResultAt, Settle, AddSearch, SearchId, SearchAction;
    if SearchId(s) in p.searchIndex {
      assert p.searchIndex.Keys + {SearchId(s)} == p.searchIndex.Keys;
    } else {
      SettleShows(lib, p);
      AddSearchShows(Settle(lib, p).state, SearchId(s), SearchAction(lib, s));
    }
  }

  lemma FinishSearchShows(p: Projection, item: OutputItem)
    requires Shape(p) && item.SearchItem? && item.id in p.searchIndex
    ensures var q := FinishSearch(p, p.searchIndex[item.id], item).state;
            && Shape(q) && Shown(q) == Shown(p) && q.toolCalls == p.toolCalls && q.citations == p.citations
            && q.searchIndex == p.searchIndex
            && forall k :: ResultAt(q, k) == if k == item.id then Some(item) else ResultAt(p, k)
  {
    hide ViewOf, OutputList;
    SearchIsUnseen(p.byIndex, p.searchIndex[item.id], item, p.out);
  }

  lemma StartedStep(lib: C.Libraries, p: Projection, events: seq<Event>, e: Event)
    requires Tells(lib, p, events) && e.kind == HostedSearchStarted && e.search.Some?
    ensures Tells(lib, SearchStarted(lib, p, e.search.value).state, events + [e])
  {
    hide Shape, Shown, ResultAt, ThinkingSaid, SearchesSaid, LastResult, SearchStarted, SearchId;
    hide D.TextSaid, D.CallsSaid, D.CitationsSaid, D.Unsigned, D.Signed, D.SearchBlocks, D.SearchesSaid;
    LastSaid(lib, events, e);
    D.LastSaid(lib, events, e);
    D.LastSearch(lib, events, e);
    AnnouncementShows(lib, p, e.search.value);
    assert forall s: string :: s + "" == s;
    assert forall s: seq<ToolCall> :: s + [] == s;
    assert forall s: seq<C.Citation> :: s + [] == s;
  }

  lemma CitationsDoNotShow(p: Projection, citations: seq<C.Citation>)
    requires Shape(p)
    ensures var q := p.(citations := citations); Shape(q) && Shown(q) == Shown(p) && forall k :: ResultAt(q, k) == ResultAt(p, k)
  {
    hide ViewOf, OutputList;
  }

  lemma CompletedStep(lib: C.Libraries, p: Projection, events: seq<Event>, e: Event)
    requires Tells(lib, p, events) && e.kind == HostedSearchCompleted && e.search.Some?
    ensures Tells(lib, SearchCompleted(lib, p, e.search.value).state, events + [e])
  {
    hide Shape, Shown, ResultAt, ThinkingSaid, SearchesSaid, LastResult, SearchStarted, SearchId, SearchAction, FinishSearch;
    hide C.SearchCitations;
    hide D.TextSaid, D.CallsSaid, D.CitationsSaid, D.Unsigned, D.Signed, D.SearchBlocks, D.SearchesSaid;
    var s := e.search.value;
    LastSaid(lib, events, e);
    D.LastSaid(lib, events, e);
    D.LastSearch(lib, events, e);
    AnnouncementShows(lib, p, s);
    var (q, item) := (SearchStarted(lib, p, s).state, SearchItem(SearchId(s), SearchAction(lib, s)));
    FinishSearchShows(q, item);
    var t := FinishSearch(q, q.searchIndex[item.id], item).state;
    CitationsDoNotShow(t, t.citations + C.SearchCitations(lib, s));
    assert forall s: string :: s + "" == s;
    assert forall s: seq<ToolCall> :: s + [] == s;
  }

  // The other events that do not end the turn.
  lemma QuietStep(lib: C.Libraries, p: Projection, q: Projection, events: seq<Event>, e: Event)
    requires Tells(lib, p, events) && e.kind != Text && (e.kind == Thinking ==> e.text == "") && !D.IsSearch(e)
    requires q == p.(semantic := q.semantic, facts := q.facts,
                     toolCalls := if e.kind == ToolCallEvent && e.toolCall.Some? then p.toolCalls + [e.toolCall.value]
                                  else p.toolCalls)
    ensures Tells(lib, q, events + [e])
  {
    hide Tells, Shape, Shown, ResultAt;
    TellsShape(lib, p, events);
    SameLooks(p, q);
    assert forall s: string :: s + "" == s;
    assert forall s: seq<ToolCall> :: s + [] == s;
    EventTells(lib, p, q, events, e);
  }

  lemma SignatureStep(lib: C.Libraries, p: Projection, events: seq<Event>, e: Event)
    requires Tells(lib, p, events) && e.kind == ThinkingCompleted
    ensures Tells(lib, CloseReasoning(p).state, events + [e])
  {
    hide Tells, Shape, Shown, ResultAt, CloseReasoning;
    TellsShape(lib, p, events);
    CloseReasoningShows(p);
    assert forall s: string :: s + "" == s;
    assert forall s: seq<ToolCall> :: s + [] == s;
    EventTells(lib, p, CloseReasoning(p).state, events, e);
  }

  lemma FactsDoNotShow(lib: C.Libraries, p: Projection, q: Projection, events: seq<Event>)
    requires Tells(lib, p, events) && q == p.(facts := q.facts, semantic := q.semantic)
    ensures Tells(lib, q, events)
  {
    hide Shape, Shown, ResultAt, ThinkingSaid, SearchesSaid, LastResult;
    hide D.TextSaid, D.CallsSaid, D.CitationsSaid;
    SameLooks(p, q);
  }

  lemma HandleTells(lib: C.Libraries, p0: Projection, events: seq<Event>, e: Event)
    requires Tells(lib, p0, events) && Handle(lib, p0, e).status == C.Running
    ensures Tells(lib, Handle(lib, p0, e).state, events + [e])
  {
    hide Tells, Usages.Observe, EmitText, EmitThinking, SearchStarted, SearchCompleted, CloseReasoning;
    var p := p0.(facts := Usages.Observe(p0.facts, e));
    FactsDoNotShow(lib, p0, p, events);
    FactsDoNotShow(lib, p, p.(semantic := true), events);
    match e.kind {
      case HostedSearchStarted =>
        if e.search.Some? {
          StartedStep(lib, p.(semantic := true), events, e);
        } else {
          QuietStep(lib, p, p.(semantic := true), events, e);
        }
      case HostedSearchCompleted =>
        if e.search.Some? {
          CompletedStep(lib, p.(semantic := true), events, e);
        } else {
          QuietStep(lib, p, p.(semantic := true), events, e);
        }
      case Text => TextStep(lib, p, events, e);
      case Thinking =>
        if e.text == "" {
          QuietStep(lib, p, p, events, e);
        } else {
          ThinkingStep(lib, p, events, e);
        }
      case ThinkingCompleted => SignatureStep(lib, p, events, e);
      case TurnEnded =>
      case Done =>
      case _ => QuietStep(lib, p, Handle(lib, p0, e).state, events, e);
    }
  }

  // A projection at work shows exactly what its events have said.
  lemma {:induction false} RunTells(lib: C.Libraries, response: string, measured: bool, events: seq<Event>)
    requires Run(lib, NewSession(response, measured), events).status == C.Running
    ensures Tells(lib, Run(lib, NewSession(response, measured), events).p, events)
  {
    hide Tells, Handle;
    if events == [] {
      NothingSaid(lib, response, measured);
    } else {
      var (before, e) := (events[..|events| - 1], events[|events| - 1]);
      assert before + [e] == events;
      RunTells(lib, response, measured, before);
      HandleTells(lib, Run(lib, NewSession(response, measured), before).p, before, e);
    }
  }

  lemma NothingSaid(lib: C.Libraries, response: string, measured: bool)
    ensures Tells(lib, NewProjection(response, measured), [])
  {}

  // ---------------------------------------------------------------------
  // The answer
  // ---------------------------------------------------------------------

  function CallOf(call: ToolCall): (string, string, string) {
    (call.toolCallId, call.name, if call.arguments == "" then "{}" else call.arguments)
  }

  function CallsOf(calls: seq<ToolCall>): seq<(string, string, string)> {
    seq(|calls|, k requires 0 <= k < |calls| => CallOf(calls[k]))
  }

  lemma CallShows(p: Projection, call: ToolCall)
    requires Shape(p) && !p.messageOpen && !p.reasoningOpen
    ensures var q := FunctionCall(p, call).state;
            && Shape(q) && !q.messageOpen && !q.reasoningOpen && q.searchIndex == p.searchIndex
            && Shown(q) == Shown(p).(calls := Shown(p).calls + [CallOf(call)]) && forall id :: ResultAt(q, id) == ResultAt(p, id)
  {
    hide ViewOf, OutputList;
    assert p.out !in p.byIndex;
    var (callId, name, arguments) := CallOf(call);
    var item := FunctionItem("fc_" + call.toolCallId, callId, name, arguments);
    AddedLast(p.byIndex, p.out, item);
    OneMore(OutputList(p.byIndex, p.out), item);
  }

  lemma {:induction false} CallsShow(p: Projection, calls: seq<ToolCall>)
    requires Shape(p) && !p.messageOpen && !p.reasoningOpen
    ensures var q := FunctionCalls(p, calls).state;
            && Shape(q) && !q.messageOpen && !q.reasoningOpen && q.searchIndex == p.searchIndex
            && Shown(q) == Shown(p).(calls := Shown(p).calls + CallsOf(calls)) && forall id :: ResultAt(q, id) == ResultAt(p, id)
  {
    hide Shape, Shown, ResultAt, FunctionCall, CallOf;
    if calls == [] {
      assert Shown(p).calls + CallsOf(calls) == Shown(p).calls;
    } else {
      var (before, call) := (calls[..|calls| - 1], calls[|calls| - 1]);
      CallsShow(p, before);
      CallShows(FunctionCalls(p, before).state, call);
      assert Shown(p).calls + CallsOf(before) + [CallOf(call)] == Shown(p).calls + CallsOf(calls);
    }
  }

  // Nothing is open: the stored items are all there is to see.
  lemma ClosedShows(p: Projection)
    requires Shape(p) && !p.messageOpen && !p.reasoningOpen
    ensures ViewOf(NonStream(p).output) == Shown(p)
    ensures forall item: OutputItem ::
              item in NonStream(p).output && item.SearchItem? <==> item.SearchItem? && ResultAt(p, item.id) == Some(item)
  {
    hide ViewOf, OutputList;
    forall item: OutputItem | item.SearchItem?
      ensures item in NonStream(p).output <==> ResultAt(p, item.id) == Some(item)
    {
      ListHolds(p.byIndex, p.out, item);
    }
  }

  // The event that ends a turn: it fails exactly when there is nothing to hand over;
  // otherwise the answer holds all text, all thinking, the last result of each
  // search, and at a handover each call with its id, name and arguments, in order.
  lemma AnswerHoldsWhatWasSaid(lib: C.Libraries, response: string, measured: bool, events: seq<Event>, e: Event)
    requires Run(lib, NewSession(response, measured), events).status == C.Running && (e.kind == TurnEnded || e.kind == Done)
    ensures var (t, calls) := (Run(lib, NewSession(response, measured), events + [e]), D.CallsSaid(events));
            && (t.status.Failed? <==> e.kind == TurnEnded && calls == [])
            && (!t.status.Failed? ==>
                  var output := NonStream(t.p).output;
                  && t.status == C.Finished(e.kind == TurnEnded)
                  && ViewOf(output) == View(D.TextSaid(events), ThinkingSaid(events), if e.kind == TurnEnded then CallsOf(calls) else [])
                  && forall item: OutputItem :: item in output && item.SearchItem?
                       <==> item.SearchItem? && LastResult(lib, events, item.id) == Some(item))
  {
    hide Shape, Shown, ResultAt, ThinkingSaid, SearchesSaid, LastResult, Settle, FunctionCalls, CallsOf, Usages.Observe, NonStream, ViewOf;
    hide D.TextSaid, D.CallsSaid, D.CitationsSaid;
    var s := Run(lib, NewSession(response, measured), events);
    assert (events + [e])[..|events|] == events;
    RunTells(lib, response, measured, events);
    var p := s.p.(facts := Usages.Observe(s.p.facts, e));
    SameLooks(s.p, p);
    SettleShows(lib, p);
    var q := Settle(lib, p).state;
    CallsShow(q, p.toolCalls);
    assert [] + CallsOf(p.toolCalls) == CallsOf(p.toolCalls);
    ClosedShows(q);
    ClosedShows(FunctionCalls(q, p.toolCalls).state);
  }
}
