// project_claude.go: what an answer holds, in terms of the events that went in.
module ClaudeContents {
  import opened Events
  import opened Usages
  import opened Strings
  import opened ClaudeProjections

  // ---------------------------------------------------------------------
  // What the events say
  // ---------------------------------------------------------------------

  function TextSaid(events: seq<Event>): string {
    if events == [] then ""
    else
      var e := events[|events| - 1];
      TextSaid(events[..|events| - 1]) + if e.kind == Text then e.text else ""
  }

  function CallsSaid(events: seq<Event>): seq<ToolCall> {
    if events == [] then []
    else
      var e := events[|events| - 1];
      CallsSaid(events[..|events| - 1]) + if e.kind == ToolCallEvent && e.toolCall.Some? then [e.toolCall.value] else []
  }

  // The thinking since a signature last came.
  function Unsigned(events: seq<Event>): string {
    if events == [] || events[|events| - 1].kind == ThinkingCompleted then ""
    else
      var e := events[|events| - 1];
      Unsigned(events[..|events| - 1]) + if e.kind == Thinking then e.text else ""
  }

  // A signature signs the thinking before it, unless one of them is blank.
  function Signed(events: seq<Event>): seq<Block> {
    if events == [] then []
    else
      var (before, e) := (events[..|events| - 1], events[|events| - 1]);
      Signed(before)
      + if e.kind == ThinkingCompleted && Trim(e.signature) != "" && Trim(Unsigned(before)) != ""
        then [ThinkingBlock(Unsigned(before), e.signature)] else []
  }

  predicate IsSearch(e: Event) {
    (e.kind == HostedSearchStarted || e.kind == HostedSearchCompleted) && e.search.Some?
  }

  function SearchesSaid(events: seq<Event>): set<string> {
    set e | e in events && IsSearch(e) :: SearchToolId(e.search.value)
  }

  // A search is announced when it is first mentioned, and its result follows.
  function BlocksOf(lib: Libraries, e: Event, known: set<string>): seq<Block>
    requires IsSearch(e)
  {
    var (s, id) := (e.search.value, SearchToolId(e.search.value));
    (if id in known then [] else [ServerToolUse(id, SearchToolName(s), SearchInput(lib, s))])
    + if e.kind == HostedSearchCompleted then [ToolResultBlock(SearchResult(lib, s).0, id, SearchResult(lib, s).1)] else []
  }

  function SearchBlocks(lib: Libraries, events: seq<Event>): seq<Block> {
    if events == [] then []
    else
      var (before, e) := (events[..|events| - 1], events[|events| - 1]);
      SearchBlocks(lib, before) + if IsSearch(e) then BlocksOf(lib, e, SearchesSaid(before)) else []
  }

  function CitationsSaid(lib: Libraries, events: seq<Event>): seq<Citation> {
    if events == [] then []
    else
      var e := events[|events| - 1];
      CitationsSaid(lib, events[..|events| - 1])
      + if e.kind == HostedSearchCompleted && e.search.Some? then SearchCitations(lib, e.search.value) else []
  }

  // ---------------------------------------------------------------------
  // What an answer holds
  // ---------------------------------------------------------------------

  function TextOf(blocks: seq<Block>): string {
    if blocks == [] then ""
    else
      var b := blocks[|blocks| - 1];
      TextOf(blocks[..|blocks| - 1]) + if b.TextBlock? then b.text else ""
  }

  datatype Sort = ThinkingSort | SearchSort | ToolSort

  predicate IsOf(b: Block, sort: Sort) {
    match sort
    case ThinkingSort => b.ThinkingBlock?
    case SearchSort => b.ServerToolUse? || b.ToolResultBlock?
    case ToolSort => b.ToolUse?
  }

  function Only(blocks: seq<Block>, sort: Sort): seq<Block> {
    if blocks == [] then []
    else
      var b := blocks[|blocks| - 1];
      Only(blocks[..|blocks| - 1], sort) + if IsOf(b, sort) then [b] else []
  }

  // What a client reads, sort by sort and in order.
  datatype View = View(text: string, thoughts: seq<Block>, searches: seq<Block>, tools: seq<Block>)

  function ViewOf(blocks: seq<Block>, open: string): View {
    View(TextOf(blocks) + open, Only(blocks, ThinkingSort), Only(blocks, SearchSort), Only(blocks, ToolSort))
  }

  // All text, the signed thinking, the searches, and these tool blocks.
  function Answer(lib: Libraries, events: seq<Event>, tools: seq<Block>): View {
    View(TextSaid(events), Signed(events), SearchBlocks(lib, events), tools)
  }

  // The projection at work: what it shows, and what it collects.
  predicate Tells(lib: Libraries, historyTurn: bool, p: Projection, events: seq<Event>) {
    && p.historyTurn == historyTurn
    && ViewOf(p.blocks, p.text) == Answer(lib, events, []) && (!p.textOpen ==> p.text == "")
    && p.toolCalls == CallsSaid(events) && p.thinking == Unsigned(events)
    && p.hostedStarted == SearchesSaid(events) && p.citations == CitationsSaid(lib, events)
  }

  function With(v: View, b: Block): View {
    if IsOf(b, ThinkingSort) then v.(thoughts := v.thoughts + [b])
    else if IsOf(b, SearchSort) then v.(searches := v.searches + [b])
    else if IsOf(b, ToolSort) then v.(tools := v.tools + [b])
    else v
  }

  lemma OneMore(blocks: seq<Block>, open: string, b: Block)
    requires !b.TextBlock?
    ensures ViewOf(blocks + [b], open) == With(ViewOf(blocks, open), b)
  {
    assert (blocks + [b])[..|blocks|] == blocks;
    assert forall s: seq<Block> :: s + [] == s;
  }

  lemma TextCloses(blocks: seq<Block>, text: string, citations: seq<Citation>)
    ensures ViewOf(blocks + [TextBlock(text, citations)], "") == ViewOf(blocks, text)
  {
    assert (blocks + [TextBlock(text, citations)])[..|blocks|] == blocks;
    assert forall s: seq<Block> :: s + [] == s;
  }

  lemma SettleShows(p: Projection)
    requires !p.textOpen ==> p.text == ""
    ensures var q := Settle(p).state;
            && ViewOf(q.blocks, q.text) == ViewOf(p.blocks, p.text) && q.text == "" && !q.textOpen
            && q == p.(started := true, textOpen := false, text := "", blocks := q.blocks)
  {
    hide ViewOf;
    if p.textOpen {
      TextCloses(p.blocks, p.text, p.citations);
    }
  }

  lemma LastSaid(lib: Libraries, events: seq<Event>, e: Event)
    ensures var all := events + [e];
            && TextSaid(all) == TextSaid(events) + (if e.kind == Text then e.text else "")
            && CallsSaid(all) == CallsSaid(events) + (if e.kind == ToolCallEvent && e.toolCall.Some? then [e.toolCall.value] else [])
            && Unsigned(all) == (if e.kind == ThinkingCompleted then ""
                                 else Unsigned(events) + if e.kind == Thinking then e.text else "")
            && Signed(all) == Signed(events)
                 + (if e.kind == ThinkingCompleted && Trim(e.signature) != "" && Trim(Unsigned(events)) != ""
                    then [ThinkingBlock(Unsigned(events), e.signature)] else [])
  {
    hide Trim;
    assert (events + [e])[..|events|] == events;
  }

  lemma LastSearch(lib: Libraries, events: seq<Event>, e: Event)
    ensures var all := events + [e];
            && SearchesSaid(all) == SearchesSaid(events) + (if IsSearch(e) then {SearchToolId(e.search.value)} else {})
            && CitationsSaid(lib, all) == CitationsSaid(lib, events)
                 + (if e.kind == HostedSearchCompleted && e.search.Some? then SearchCitations(lib, e.search.value) else [])
            && SearchBlocks(lib, all)
                 == SearchBlocks(lib, events) + if IsSearch(e) then BlocksOf(lib, e, SearchesSaid(events)) else []
  {
    hide SearchToolId, BlocksOf, SearchCitations;
    var all := events + [e];
    assert all[..|events|] == events;
    assert forall x :: x in all <==> x in events || x == e;
  }

  // ---------------------------------------------------------------------
  // The steps
  // ---------------------------------------------------------------------

  lemma TextStep(lib: Libraries, history: bool, p: Projection, events: seq<Event>, e: Event)
    requires Tells(lib, history, p, events) && e.kind == Text
    ensures Tells(lib, history, EmitText(p, e.text).state, events + [e])
  {
    hide TextOf, Only, TextSaid, CallsSaid, Unsigned, Signed, SearchBlocks, SearchesSaid, CitationsSaid;
    LastSaid(lib, events, e);
    LastSearch(lib, events, e);
    assert forall s: seq<Block> :: s + [] == s;
    assert forall s: seq<Citation> :: s + [] == s;
    assert forall s: seq<ToolCall> :: s + [] == s;
    assert TextOf(p.blocks) + (p.text + e.text) == TextOf(p.blocks) + p.text + e.text;
  }

  lemma ThinkingStep(lib: Libraries, history: bool, p: Projection, events: seq<Event>, e: Event)
    requires Tells(lib, history, p, events) && e.kind == ThinkingCompleted
    ensures Tells(lib, history, EmitSignedThinking(p, e.signature).state, events + [e])
  {
    hide Trim, ViewOf, TextSaid, CallsSaid, Unsigned, Signed, SearchBlocks, SearchesSaid, CitationsSaid, Settle;
    LastSaid(lib, events, e);
    LastSearch(lib, events, e);
    assert forall s: seq<Block> :: s + [] == s;
    assert forall s: seq<Citation> :: s + [] == s;
    assert forall s: seq<ToolCall> :: s + [] == s;
    var q := p.(thinking := "", semantic := true);
    SettleShows(q);
    OneMore(Settle(q).state.blocks, "", ThinkingBlock(p.thinking, e.signature));
  }

  // The announcement of a search shows its block, unless it was announced before.
  lemma AnnouncementShows(lib: Libraries, p: Projection, s: HostedSearch)
    requires !p.textOpen ==> p.text == ""
    ensures var (q, id) := (SearchStarted(lib, p, s).state, SearchToolId(s));
            && (!q.textOpen ==> q.text == "") && q.hostedStarted == p.hostedStarted + {id} && q.historyTurn == p.historyTurn
            && q.toolCalls == p.toolCalls && q.thinking == p.thinking && q.citations == p.citations
            && ViewOf(q.blocks, q.text)
                 == if id in p.hostedStarted then ViewOf(p.blocks, p.text)
                    else With(ViewOf(p.blocks, p.text), ServerToolUse(id, SearchToolName(s), SearchInput(lib, s)))
  {
    hide ViewOf, Settle, SearchToolId, SearchToolName, SearchInput, With;
    var id := SearchToolId(s);
    if id in p.hostedStarted {
      assert p.hostedStarted + {id} == p.hostedStarted;
    } else {
      var q := p.(hostedStarted := p.hostedStarted + {id});
      SettleShows(q);
      OneMore(Settle(q).state.blocks, "", ServerToolUse(id, SearchToolName(s), SearchInput(lib, s)));
    }
  }

  lemma StartedStep(lib: Libraries, history: bool, p: Projection, events: seq<Event>, e: Event)
    requires Tells(lib, history, p, events) && e.kind == HostedSearchStarted && e.search.Some?
    ensures Tells(lib, history, SearchStarted(lib, p, e.search.value).state, events + [e])
  {
    hide ViewOf, TextSaid, CallsSaid, Unsigned, Signed, SearchBlocks, SearchesSaid, CitationsSaid, SearchStarted;
    hide SearchToolId, SearchToolName, SearchInput;
    LastSaid(lib, events, e);
    LastSearch(lib, events, e);
    AnnouncementShows(lib, p, e.search.value);
    assert forall s: seq<Block> :: s + [] == s;
    assert forall s: seq<Citation> :: s + [] == s;
    assert forall s: seq<ToolCall> :: s + [] == s;
  }

  lemma CompletedStep(lib: Libraries, history: bool, p: Projection, events: seq<Event>, e: Event)
    requires Tells(lib, history, p, events) && e.kind == HostedSearchCompleted && e.search.Some?
    ensures Tells(lib, history, SearchCompleted(lib, p, e.search.value).state, events + [e])
  {
    hide ViewOf, TextSaid, CallsSaid, Unsigned, Signed, SearchBlocks, SearchesSaid, CitationsSaid, SearchStarted;
    hide SearchToolId, SearchToolName, SearchInput, SearchResult, SearchCitations;
    var s := e.search.value;
    LastSaid(lib, events, e);
    LastSearch(lib, events, e);
    AnnouncementShows(lib, p, s);
    var q := SearchStarted(lib, p, s).state;
    OneMore(q.blocks, q.text, ToolResultBlock(SearchResult(lib, s).0, SearchToolId(s), SearchResult(lib, s).1));
    assert forall s: seq<Block> :: s + [] == s;
    assert forall s: seq<ToolCall> :: s + [] == s;
  }

  // Every other event that does not end the turn shows nothing by itself.
  lemma QuietStep(lib: Libraries, history: bool, p: Projection, q: Projection, events: seq<Event>, e: Event)
    requires Tells(lib, history, p, events) && e.kind != Text && e.kind != ThinkingCompleted && !IsSearch(e)
    requires q == p.(semantic := q.semantic, facts := q.facts,
                     toolCalls := if e.kind == ToolCallEvent && e.toolCall.Some? then p.toolCalls + [e.toolCall.value]
                                  else p.toolCalls,
                     thinking := if e.kind == Thinking then p.thinking + e.text else p.thinking)
    ensures Tells(lib, history, q, events + [e])
  {
    hide ViewOf, TextSaid, CallsSaid, Unsigned, Signed, SearchBlocks, SearchesSaid, CitationsSaid;
    LastSaid(lib, events, e);
    LastSearch(lib, events, e);
    assert forall s: seq<Block> :: s + [] == s;
    assert forall s: seq<Citation> :: s + [] == s;
    assert forall s: seq<ToolCall> :: s + [] == s;
    assert p.thinking + "" == p.thinking;
  }

  lemma HandleTells(lib: Libraries, history: bool, p0: Projection, events: seq<Event>, e: Event)
    requires Tells(lib, history, p0, events) && Handle(lib, p0, e).status == Running
    ensures Tells(lib, history, Handle(lib, p0, e).state, events + [e])
  {
    hide Tells, Observe, EmitText, EmitSignedThinking, SearchStarted, SearchCompleted;
    var p := p0.(facts := Observe(p0.facts, e));
    FactsDoNotShow(lib, history, p0, p, events);
    FactsDoNotShow(lib, history, p, p.(semantic := true), events);
    match e.kind {
      case HostedSearchStarted =>
        if e.search.Some? {
          StartedStep(lib, history, p.(semantic := true), events, e);
        } else {
          QuietStep(lib, history, p, p.(semantic := true), events, e);
        }
      case HostedSearchCompleted =>
        if e.search.Some? {
          CompletedStep(lib, history, p.(semantic := true), events, e);
        } else {
          QuietStep(lib, history, p, p.(semantic := true), events, e);
        }
      case Text => TextStep(lib, history, p, events, e);
      case ThinkingCompleted => ThinkingStep(lib, history, p, events, e);
      case TurnEnded =>
      case _ => QuietStep(lib, history, p, Handle(lib, p0, e).state, events, e);
    }
  }

  lemma FactsDoNotShow(lib: Libraries, history: bool, p: Projection, q: Projection, events: seq<Event>)
    requires Tells(lib, history, p, events) && q == p.(facts := q.facts, semantic := q.semantic)
    ensures Tells(lib, history, q, events)
  {}

  // A projection at work shows exactly what its events have said.
  lemma {:induction false} RunTells(lib: Libraries, historyTurn: bool, measured: bool, events: seq<Event>)
    requires Run(lib, NewSession(historyTurn, measured), events).status == Running
    ensures Tells(lib, historyTurn, Run(lib, NewSession(historyTurn, measured), events).p, events)
  {
    hide Tells, Handle;
    if events == [] {
      NothingSaid(lib, historyTurn, measured);
    } else {
      var (before, e) := (events[..|events| - 1], events[|events| - 1]);
      assert before + [e] == events;
      RunTells(lib, historyTurn, measured, before);
      HandleTells(lib, historyTurn, Run(lib, NewSession(historyTurn, measured), before).p, before, e);
    }
  }

  lemma NothingSaid(lib: Libraries, historyTurn: bool, measured: bool)
    ensures Tells(lib, historyTurn, NewProjection(historyTurn, measured), [])
  {}

  // ---------------------------------------------------------------------
  // The answer
  // ---------------------------------------------------------------------

  // The calls are handed over at the end of a turn, and of a history turn with calls.
  predicate HandsOver(historyTurn: bool, e: Event, calls: seq<ToolCall>) {
    e.kind == TurnEnded || (e.kind == Done && historyTurn && calls != [])
  }

  predicate Parses(lib: Libraries, calls: seq<ToolCall>) {
    forall k :: 0 <= k < |calls| ==> ToolInput(lib, calls[k]).Some?
  }

  function ToolBlocks(lib: Libraries, calls: seq<ToolCall>): seq<Block>
    requires Parses(lib, calls)
  {
    seq(|calls|, k requires 0 <= k < |calls| => ToolUse(calls[k].toolCallId, calls[k].name, ToolInput(lib, calls[k]).value))
  }

  lemma {:induction false} ToolsShow(lib: Libraries, p: Projection, calls: seq<ToolCall>)
    requires Only(p.blocks, ToolSort) == []
    ensures var (out, ok) := EmitTools(lib, p, calls);
            && (ok <==> Parses(lib, calls)) && out.state.text == p.text && out.state.toolCalls == p.toolCalls
            && (ok ==> ViewOf(out.state.blocks, p.text) == ViewOf(p.blocks, p.text).(tools := ToolBlocks(lib, calls)))
  {
    hide TextOf, Only, ToolInput;
    if calls == [] {
      assert p.blocks == EmitTools(lib, p, calls).0.state.blocks;
    } else {
      var (before, call) := (calls[..|calls| - 1], calls[|calls| - 1]);
      ToolsShow(lib, p, before);
      var (out, ok) := EmitTools(lib, p, before);
      if ok && ToolInput(lib, call).Some? {
        var block := ToolUse(call.toolCallId, call.name, ToolInput(lib, call).value);
        hide ViewOf;
        OneMore(out.state.blocks, p.text, block);
        assert ToolBlocks(lib, calls) == ToolBlocks(lib, before) + [block];
      } else if ok {
        assert calls[|calls| - 1] == call;
      } else {
        var k :| 0 <= k < |before| && ToolInput(lib, before[k]).None?;
        assert calls[k] == before[k];
      }
    }
  }

  // The event that ends a turn: it fails exactly when there is nothing to hand over
  // or a call's arguments do not parse; otherwise the answer holds all that was
  // said, and one tool block for each call that is handed over, in order.
  lemma AnswerHoldsWhatWasSaid(lib: Libraries, historyTurn: bool, measured: bool, events: seq<Event>, e: Event)
    requires Run(lib, NewSession(historyTurn, measured), events).status == Running && (e.kind == TurnEnded || e.kind == Done)
    ensures var (t, calls) := (Run(lib, NewSession(historyTurn, measured), events + [e]), CallsSaid(events));
            && (t.status.Failed? <==> HandsOver(historyTurn, e, calls) && (calls == [] || !Parses(lib, calls)))
            && (!t.status.Failed? ==>
                  && t.status == Finished(e.kind == TurnEnded)
                  && ViewOf(NonStream(t.p).content, "")
                       == Answer(lib, events, if HandsOver(historyTurn, e, calls) then ToolBlocks(lib, calls) else [])
                  && NonStream(t.p).stopReason == if calls != [] then "tool_use" else "end_turn")
  {
    hide ViewOf, TextSaid, CallsSaid, Unsigned, Signed, SearchBlocks, SearchesSaid, CitationsSaid;
    hide Settle, EmitTools, Parses, ToolBlocks, Observe;
    var s := Run(lib, NewSession(historyTurn, measured), events);
    assert (events + [e])[..|events|] == events;
    RunTells(lib, historyTurn, measured, events);
    var p := s.p.(facts := Observe(s.p.facts, e));
    SettleShows(p);
    var settled := Settle(p);
    assert Only(settled.state.blocks, ToolSort) == [] by {
      assert ViewOf(settled.state.blocks, "").tools == [];
      ToolsOf(settled.state.blocks);
    }
    ToolsShow(lib, settled.state, p.toolCalls);
  }

  lemma ToolsOf(blocks: seq<Block>)
    ensures ViewOf(blocks, "").tools == Only(blocks, ToolSort)
  {}
}
