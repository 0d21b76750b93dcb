// project_claude.go for Messages clients: the event stream and the non-stream
// body are two views of one state machine.
module ClaudeProjections {
  import opened Events
  import opened Usages
  import opened Strings

  // ---------------------------------------------------------------------
  // Blocks and stream chunks
  // ---------------------------------------------------------------------

  datatype Citation = Citation(url: string, title: string, citedText: string)

  datatype ResultContent =
    | FetchError(message: string)
    | FetchedDocument(url: string, data: string)
    | SearchError(reason: Option<string>)
    | SearchResults(titlesAndUrls: seq<(string, string)>)

  datatype Block =
    | TextBlock(text: string, citations: seq<Citation>)
    | ThinkingBlock(thinking: string, signature: string)
    | ToolUse(id: string, name: string, input: string)
    | ServerToolUse(id: string, name: string, input: string)
    | ToolResultBlock(resultType: string, toolUseId: string, content: ResultContent)

  datatype Delta =
    | TextDelta(text: string)
    | CitationDelta(citation: Citation)
    | ThinkingDelta(thinking: string)
    | SignatureDelta(signature: string)
    | InputDelta(json: string)

  datatype Chunk =
    | MessageStart
    | BlockStart(index: nat, block: Block)
    | BlockDelta(index: nat, delta: Delta)
    | BlockStop(index: nat)
    | MessageDelta(stopReason: string, facts: Facts)
    | MessageStop

  // ---------------------------------------------------------------------
  // Hosted searches
  // ---------------------------------------------------------------------

  // What the JSON and URL libraries decide: the canonical form of a tool's
  // arguments if they parse, and whether a link is a usable HTTP source.
  datatype Libraries = Libraries(parse: string -> Option<string>, usable: string -> bool, quote: string -> string)

  predicate IsFetch(s: HostedSearch) {
    s.kind == "web_fetch" || s.kind == "exa_fetch"
  }

  predicate HasPrefix(s: string, prefix: string) {
    |prefix| <= |s| && s[..|prefix|] == prefix
  }

  function SearchToolId(s: HostedSearch): string {
    var id := if Trim(s.callId) == "" then "search" else Trim(s.callId);
    if HasPrefix(id, "srvtoolu_") || HasPrefix(id, "ws_") then id else "srvtoolu_" + id
  }

  function SearchToolName(s: HostedSearch): string {
    if IsFetch(s) then "web_fetch" else "web_search"
  }

  function FetchUrl(s: HostedSearch): string {
    if s.url == "" then s.query else s.url
  }

  function SearchInput(lib: Libraries, s: HostedSearch): string {
    if IsFetch(s) then "{\"url\":" + lib.quote(FetchUrl(s)) + "}" else "{\"query\":" + lib.quote(s.query) + "}"
  }

  function UsableReferences(lib: Libraries, refs: seq<SearchReference>): seq<SearchReference> {
    if refs == [] then []
    else UsableReferences(lib, refs[..|refs| - 1]) + if lib.usable(refs[|refs| - 1].url) then [refs[|refs| - 1]] else []
  }

  function References(s: HostedSearch): seq<SearchReference> {
    if s.references.Some? then s.references.value else []
  }

  function SearchResult(lib: Libraries, s: HostedSearch): (string, ResultContent) {
    if IsFetch(s) then
      ("web_fetch_tool_result", if s.error != "" then FetchError(s.error) else FetchedDocument(FetchUrl(s), s.content))
    else
      var usable := UsableReferences(lib, References(s));
      ("web_search_tool_result",
       if s.error != "" then SearchError(Some(s.error))
       else if References(s) != [] && usable == [] then SearchError(None)
       else SearchResults(seq(|usable|, i requires 0 <= i < |usable| => (usable[i].title, usable[i].url))))
  }

  function SearchCitations(lib: Libraries, s: HostedSearch): seq<Citation> {
    var usable := UsableReferences(lib, References(s));
    seq(|usable|, i requires 0 <= i < |usable| => Citation(usable[i].url, usable[i].title, usable[i].chunk))
  }

  // ---------------------------------------------------------------------
  // The projection state
  // ---------------------------------------------------------------------

  datatype Projection = Projection(
    historyTurn: bool,
    started: bool,
    semantic: bool,
    textOpen: bool,
    textIndex: nat,
    blockIndex: nat,
    text: string,
    thinking: string,
    toolCalls: seq<ToolCall>,
    blocks: seq<Block>,
    citations: seq<Citation>,
    hostedStarted: set<string>,
    facts: Facts)

  function NewProjection(historyTurn: bool, measured: bool): Projection {
    Projection(historyTurn, false, false, false, 0, 0, "", "", [], [], [], {}, NewFacts(measured))
  }

  // A new state and the chunks emitted on the way there.
  datatype Out = Out(state: Projection, chunks: seq<Chunk>) {
    function Then(next: Out): Out {
      Out(next.state, chunks + next.chunks)
    }
  }

  function Start(p: Projection): Out {
    if p.started then Out(p, []) else Out(p.(started := true), [MessageStart])
  }

  function CloseText(p: Projection): Out {
    if !p.textOpen then Out(p, [])
    else Out(p.(textOpen := false, text := "", blocks := p.blocks + [TextBlock(p.text, p.citations)]), [BlockStop(p.textIndex)])
  }

  function DeltaChunks(i: nat, deltas: seq<Delta>): seq<Chunk> {
    seq(|deltas|, k requires 0 <= k < |deltas| => BlockDelta(i, deltas[k]))
  }

  function CitationDeltas(citations: seq<Citation>): seq<Delta> {
    seq(|citations|, k requires 0 <= k < |citations| => CitationDelta(citations[k]))
  }

  // A block that is started, filled and stopped at once.
  function WholeBlock(p: Projection, opening: Block, deltas: seq<Delta>, whole: Block): Out {
    var i := p.blockIndex;
    Out(p.(blockIndex := i + 1, blocks := p.blocks + [whole]),
        [BlockStart(i, opening)] + DeltaChunks(i, deltas) + [BlockStop(i)])
  }

  function OpenText(p: Projection): Out {
    if p.textOpen then Out(p, [])
    else
      var i := p.blockIndex;
      Out(p.(blockIndex := i + 1, textIndex := i, textOpen := true),
          [BlockStart(i, TextBlock("", []))] + DeltaChunks(i, CitationDeltas(p.citations)))
  }

  function EmitText(p: Projection, text: string): Out {
    var started := Start(p.(semantic := true));
    var begun := OpenText(started.state);
    var q := begun.state;
    started.Then(begun).Then(Out(q.(text := q.text + text), [BlockDelta(q.textIndex, TextDelta(text))]))
  }

  // The start message and the closing of the text block that precede most blocks.
  function Settle(p: Projection): Out {
    var started := Start(p);
    started.Then(CloseText(started.state))
  }

  function EmitSignedThinking(p: Projection, signature: string): Out {
    var thinking := p.thinking;
    var q := p.(thinking := "");
    if Trim(signature) == "" || Trim(thinking) == "" then Out(q, [])
    else
      var settled := Settle(q.(semantic := true));
      settled.Then(WholeBlock(settled.state, ThinkingBlock("", ""), [ThinkingDelta(thinking), SignatureDelta(signature)],
                              ThinkingBlock(thinking, signature)))
  }

  function SearchStarted(lib: Libraries, p: Projection, s: HostedSearch): Out {
    var id := SearchToolId(s);
    if id in p.hostedStarted then Out(p, [])
    else
      var settled := Settle(p.(hostedStarted := p.hostedStarted + {id}));
      var input := SearchInput(lib, s);
      settled.Then(WholeBlock(settled.state, ServerToolUse(id, SearchToolName(s), "{}"), [InputDelta(input)],
                              ServerToolUse(id, SearchToolName(s), input)))
  }

  function SearchCompleted(lib: Libraries, p: Projection, s: HostedSearch): Out {
    var begun := SearchStarted(lib, p, s);
    var (kind, content) := SearchResult(lib, s);
    var result := ToolResultBlock(kind, SearchToolId(s), content);
    var done := begun.Then(WholeBlock(begun.state, result, [], result));
    Out(done.state.(citations := done.state.citations + SearchCitations(lib, s)), done.chunks)
  }

  function ToolInput(lib: Libraries, call: ToolCall): Option<string> {
    if Trim(call.arguments) == "" then Some("{}") else lib.parse(call.arguments)
  }

  // Tool blocks in order, up to the first call whose arguments do not parse.
  function EmitTools(lib: Libraries, p: Projection, calls: seq<ToolCall>): (Out, bool) {
    if calls == [] then (Out(p, []), true)
    else
      var (before, ok) := EmitTools(lib, p, calls[..|calls| - 1]);
      var call := calls[|calls| - 1];
      var input := ToolInput(lib, call);
      if !ok || input.None? then (before, false)
      else
        (before.Then(WholeBlock(before.state, ToolUse(call.toolCallId, call.name, "{}"), [InputDelta(input.value)],
                                ToolUse(call.toolCallId, call.name, input.value))), true)
  }

  function FinishChunks(p: Projection, reason: string): seq<Chunk> {
    [MessageDelta(reason, p.facts), MessageStop]
  }

  datatype Status = Running | Finished(park: bool) | Failed

  datatype Outcome = Outcome(state: Projection, chunks: seq<Chunk>, status: Status)

  function ToolHandoff(lib: Libraries, p: Projection, park: bool): Outcome {
    if p.toolCalls == [] then Outcome(p, [], Failed)
    else
      var settled := Settle(p);
      var (tools, ok) := EmitTools(lib, settled.state, p.toolCalls);
      var out := settled.Then(tools);
      if !ok then Outcome(out.state, [], Failed)
      else Outcome(out.state, out.chunks + FinishChunks(out.state, "tool_use"), Finished(park))
  }

  function Handle(lib: Libraries, p0: Projection, e: Event): Outcome {
    var p := p0.(facts := Observe(p0.facts, e));
    match e.kind
    case HostedSearchStarted =>
      var q := p.(semantic := true);
      var out := if e.search.None? then Out(q, []) else SearchStarted(lib, q, e.search.value);
      Outcome(out.state, out.chunks, Running)
    case HostedSearchCompleted =>
      var q := p.(semantic := true);
      var out := if e.search.None? then Out(q, []) else SearchCompleted(lib, q, e.search.value);
      Outcome(out.state, out.chunks, Running)
    case ToolCallEvent =>
      Outcome(if e.toolCall.None? then p else p.(semantic := true, toolCalls := p.toolCalls + [e.toolCall.value]), [], Running)
    case Text =>
      var out := EmitText(p, e.text);
      Outcome(out.state, out.chunks, Running)
    case Thinking => Outcome(if e.text == "" then p else p.(thinking := p.thinking + e.text), [], Running)
    case ThinkingCompleted =>
      var out := EmitSignedThinking(p, e.signature);
      Outcome(out.state, out.chunks, Running)
    case TurnEnded => ToolHandoff(lib, p, true)
    case Done =>
      if p.historyTurn && p.toolCalls != [] then ToolHandoff(lib, p, false)
      else
        var out := Settle(p);
        Outcome(out.state, out.chunks + FinishChunks(out.state, "end_turn"), Finished(false))
    case _ => Outcome(p, [], Running)
  }

  // A whole generation: everything after the first terminal is ignored.
  datatype Session = Session(p: Projection, stream: seq<Chunk>, status: Status)

  function Next(lib: Libraries, s: Session, e: Event): Session {
    if s.status != Running then s
    else
      var o := Handle(lib, s.p, e);
      Session(o.state, s.stream + o.chunks, o.status)
  }

  function Run(lib: Libraries, s: Session, events: seq<Event>): Session {
    if events == [] then s else Next(lib, Run(lib, s, events[..|events| - 1]), events[|events| - 1])
  }

  function NewSession(historyTurn: bool, measured: bool): Session {
    Session(NewProjection(historyTurn, measured), [], Running)
  }

  // The non-stream message body.
  datatype Body = Body(content: seq<Block>, stopReason: string, facts: Facts, citationCount: nat)

  function NonStream(p: Projection): Body {
    Body(p.blocks, if p.toolCalls != [] then "tool_use" else "end_turn", p.facts, |p.citations|)
  }

  // ---------------------------------------------------------------------
  // A client of the stream
  // ---------------------------------------------------------------------

  // What a client holds: the blocks assembled so far, which of them are open,
  // and how far the message has come.
  datatype Reader = Reader(started: bool, stopping: bool, stopped: bool, blocks: seq<Block>, open: set<nat>)

  function ApplyDelta(b: Block, d: Delta): Option<Block> {
    match (b, d)
    case (TextBlock(t, cs), TextDelta(more)) => Some(TextBlock(t + more, cs))
    case (TextBlock(t, cs), CitationDelta(c)) => Some(TextBlock(t, cs + [c]))
    case (ThinkingBlock(t, sig), ThinkingDelta(more)) => Some(ThinkingBlock(t + more, sig))
    case (ThinkingBlock(t, sig), SignatureDelta(more)) => Some(ThinkingBlock(t, sig + more))
    case (ToolUse(id, name, input), InputDelta(json)) => Some(ToolUse(id, name, input + json))
    case (ServerToolUse(id, name, input), InputDelta(json)) => Some(ServerToolUse(id, name, input + json))
    case _ => None
  }

  // The partial JSON of an input adds up from nothing.
  function Begun(b: Block): Block {
    match b
    case ToolUse(id, name, _) => ToolUse(id, name, "")
    case ServerToolUse(id, name, _) => ServerToolUse(id, name, "")
    case _ => b
  }

  // One chunk, or None when the protocol does not allow it here: a single
  // message_start, block indices 0, 1, 2, ... each started once, deltas and one
  // stop only while the block is open, message_stop with every block stopped.
  function Accept(r: Reader, c: Chunk): Option<Reader> {
    if r.stopped then None
    else match c
      case MessageStart => if r.started then None else Some(r.(started := true))
      case BlockStart(i, b) =>
        if !r.started || r.stopping || i != |r.blocks| then None
        else Some(r.(blocks := r.blocks + [Begun(b)], open := r.open + {i}))
      case BlockDelta(i, d) =>
        if i !in r.open || i >= |r.blocks| then None
        else
          var b := ApplyDelta(r.blocks[i], d);
          if b.None? then None else Some(r.(blocks := r.blocks[i := b.value]))
      case BlockStop(i) => if i !in r.open then None else Some(r.(open := r.open - {i}))
      case MessageDelta(_, _) => if !r.started || r.stopping || r.open != {} then None else Some(r.(stopping := true))
      case MessageStop => if !r.stopping then None else Some(r.(stopped := true))
  }

  function Read(r: Option<Reader>, chunks: seq<Chunk>): Option<Reader> {
    if chunks == [] then r
    else
      var before := Read(r, chunks[..|chunks| - 1]);
      if before.None? then None else Accept(before.value, chunks[|chunks| - 1])
  }

  const NEW_READER := Reader(false, false, false, [], {})

  lemma {:induction false} ReadConcatenation(r: Option<Reader>, a: seq<Chunk>, b: seq<Chunk>)
    ensures Read(r, a + b) == Read(Read(r, a), b)
  {
    if b == [] {
      assert a + b == a;
    } else {
      assert (a + b)[..|a + b| - 1] == a + b[..|b| - 1];
      ReadConcatenation(r, a, b[..|b| - 1]);
    }
  }

  // The text block that is still open, as the non-stream body will record it.
  function PendingText(p: Projection): seq<Block> {
    if p.textOpen then [TextBlock(p.text, p.citations)] else []
  }

  // How a running projection and its client agree on what is open.
  predicate InStep(p: Projection, r: Reader) {
    && r.started == p.started && !r.stopping && !r.stopped
    && |r.blocks| == p.blockIndex == |p.blocks| + |PendingText(p)|
    && (p.textOpen ==> p.started && p.textIndex < |r.blocks| && r.blocks[p.textIndex].TextBlock? && r.blocks[p.textIndex].text == p.text)
    && (!p.textOpen ==> p.text == "")
    && r.open == if p.textOpen then {p.textIndex} else {}
  }

  // The client holds exactly the blocks of the non-stream body.
  predicate SameBlocks(p: Projection, r: Reader) {
    r.blocks == p.blocks + PendingText(p) && (p.textOpen ==> p.textIndex == |p.blocks|)
  }

  // A position where the client holds a text block and the body a search result.
  ghost predicate Crossed(p: Projection, r: Reader) {
    exists j :: 0 <= j < |p.blocks| && j < |r.blocks| && p.blocks[j].ToolResultBlock? && r.blocks[j].TextBlock?
  }

  // A step that reads `chunks` keeps the client in step, keeps equal blocks
  // equal and crossed blocks crossed.
  ghost predicate Follows(p: Projection, r: Reader, o: Out, r': Option<Reader>) {
    && r'.Some? && InStep(o.state, r'.value)
    && (SameBlocks(p, r) ==> SameBlocks(o.state, r'.value))
    && (Crossed(p, r) ==> Crossed(o.state, r'.value))
  }

  // Crossed blocks stay crossed while the body only grows and text stays text.
  lemma CrossedStays(p: Projection, r: Reader, q: Projection, r': Reader)
    requires p.blocks <= q.blocks && |r.blocks| <= |r'.blocks|
    requires forall j :: 0 <= j < |r.blocks| && r.blocks[j].TextBlock? ==> r'.blocks[j].TextBlock?
    ensures Crossed(p, r) ==> Crossed(q, r')
  {
    if Crossed(p, r) {
      var j :| 0 <= j < |p.blocks| && j < |r.blocks| && p.blocks[j].ToolResultBlock? && r.blocks[j].TextBlock?;
      assert q.blocks[j] == p.blocks[j];
    }
  }

  lemma Read1(r: Reader, c: Chunk)
    ensures Read(Some(r), [c]) == Accept(r, c)
  {
    assert [c][..0] == [];
  }

  lemma ThenFollows(p: Projection, r: Reader, a: Out, r1: Option<Reader>, b: Out, r2: Option<Reader>)
    requires r1 == Read(Some(r), a.chunks) && Follows(p, r, a, r1)
    requires r2 == Read(r1, b.chunks) && Follows(a.state, r1.value, b, r2)
    ensures Read(Some(r), a.Then(b).chunks) == r2 && Follows(p, r, a.Then(b), r2)
  {
    ReadConcatenation(Some(r), a.chunks, b.chunks);
  }

  lemma StartFollows(p: Projection, r: Reader)
    requires InStep(p, r)
    ensures Follows(p, r, Start(p), Read(Some(r), Start(p).chunks))
  {
    Read1(r, MessageStart);
  }

  lemma CloseTextFollows(p: Projection, r: Reader)
    requires InStep(p, r)
    ensures Follows(p, r, CloseText(p), Read(Some(r), CloseText(p).chunks))
  {
    if p.textOpen {
      Read1(r, BlockStop(p.textIndex));
      var q := CloseText(p).state;
      assert q.blocks + PendingText(q) == p.blocks + PendingText(p);
      CrossedStays(p, r, q, r.(open := r.open - {p.textIndex}));
    }
  }

  function ApplyDeltas(b: Block, deltas: seq<Delta>): Option<Block> {
    if deltas == [] then Some(b)
    else
      var before := ApplyDeltas(b, deltas[..|deltas| - 1]);
      if before.None? then None else ApplyDelta(before.value, deltas[|deltas| - 1])
  }

  lemma {:induction false} ReadDeltas(r: Reader, i: nat, deltas: seq<Delta>)
    requires i in r.open && i < |r.blocks| && !r.stopped && ApplyDeltas(r.blocks[i], deltas).Some?
    ensures Read(Some(r), DeltaChunks(i, deltas)) == Some(r.(blocks := r.blocks[i := ApplyDeltas(r.blocks[i], deltas).value]))
  {
    hide ApplyDelta;
    assert r.blocks[i := r.blocks[i]] == r.blocks;
    if deltas != [] {
      var n := |deltas| - 1;
      ReadDeltas(r, i, deltas[..n]);
      assert DeltaChunks(i, deltas)[..n] == DeltaChunks(i, deltas[..n]);
      var b1, b2 := ApplyDeltas(r.blocks[i], deltas[..n]).value, ApplyDeltas(r.blocks[i], deltas).value;
      assert r.blocks[i := b1][i := b2] == r.blocks[i := b2];
    }
  }

  lemma ReadWholeBlock(r: Reader, i: nat, opening: Block, deltas: seq<Delta>, whole: Block)
    requires r.started && !r.stopping && !r.stopped && i == |r.blocks| && i !in r.open
    requires ApplyDeltas(Begun(opening), deltas) == Some(whole)
    ensures Read(Some(r), [BlockStart(i, opening)] + DeltaChunks(i, deltas) + [BlockStop(i)]) == Some(r.(blocks := r.blocks + [whole]))
  {
    var start, middle, stop := [BlockStart(i, opening)], DeltaChunks(i, deltas), [BlockStop(i)];
    ReadConcatenation(Some(r), start + middle, stop);
    ReadConcatenation(Some(r), start, middle);
    Read1(r, BlockStart(i, opening));
    var r1 := r.(blocks := r.blocks + [Begun(opening)], open := r.open + {i});
    ReadDeltas(r1, i, deltas);
    var r2 := r1.(blocks := r1.blocks[i := whole]);
    Read1(r2, BlockStop(i));
    assert r2.blocks == r.blocks + [whole];
    assert r2.open - {i} == r.open;
  }

  // A whole block leaves an open text block alone; while none is open it lands
  // at the same place in the stream and in the body.
  lemma WholeBlockFollows(p: Projection, r: Reader, opening: Block, deltas: seq<Delta>, whole: Block)
    requires InStep(p, r) && p.started && ApplyDeltas(Begun(opening), deltas) == Some(whole)
    ensures var o := WholeBlock(p, opening, deltas, whole);
            var r' := Read(Some(r), o.chunks);
            && r'.Some? && InStep(o.state, r'.value)
            && (Crossed(p, r) ==> Crossed(o.state, r'.value))
            && (!p.textOpen ==> Follows(p, r, o, r'))
            && (p.textOpen && SameBlocks(p, r) && whole.ToolResultBlock? ==> Crossed(o.state, r'.value))
  {
    var i := p.blockIndex;
    ReadWholeBlock(r, i, opening, deltas, whole);
    var o := WholeBlock(p, opening, deltas, whole);
    var r' := r.(blocks := r.blocks + [whole]);
    assert Read(Some(r), o.chunks) == Some(r');
    CrossedStays(p, r, o.state, r');
    if p.textOpen && SameBlocks(p, r) && whole.ToolResultBlock? {
      var j := |p.blocks|;
      assert o.state.blocks[j] == whole && r'.blocks[j] == PendingText(p)[0];
    }
  }

  lemma {:induction false} ReadCitations(t: string, before: seq<Citation>, citations: seq<Citation>)
    ensures ApplyDeltas(TextBlock(t, before), CitationDeltas(citations)) == Some(TextBlock(t, before + citations))
  {
    var deltas := CitationDeltas(citations);
    if citations != [] {
      var n := |citations| - 1;
      ReadCitations(t, before, citations[..n]);
      assert deltas[..n] == CitationDeltas(citations[..n]);
      assert before + citations[..n] + [citations[n]] == before + citations;
    } else {
      assert before + citations == before;
    }
  }

  lemma ReadStart(r: Reader, i: nat, b: Block)
    requires r.started && !r.stopping && !r.stopped && i == |r.blocks| && r.open == {}
    ensures Read(Some(r), [BlockStart(i, b)]) == Some(r.(blocks := r.blocks + [Begun(b)], open := {i}))
  {
    Read1(r, BlockStart(i, b));
    assert r.open + {i} == {i};
  }

  lemma ReadOpenText(p: Projection, r: Reader)
    requires InStep(p, r) && p.started && !p.textOpen
    ensures Read(Some(r), OpenText(p).chunks) ==
            Some(r.(blocks := r.blocks + [TextBlock("", p.citations)], open := {p.blockIndex}))
  {
    hide ApplyDeltas, Accept, Read;
    var i := p.blockIndex;
    var deltas := CitationDeltas(p.citations);
    var start, middle := [BlockStart(i, TextBlock("", []))], DeltaChunks(i, deltas);
    ReadConcatenation(Some(r), start, middle);
    ReadStart(r, i, TextBlock("", []));
    var r1 := r.(blocks := r.blocks + [TextBlock("", [])], open := {i});
    ReadCitations("", [], p.citations);
    assert [] + p.citations == p.citations;
    ReadDeltas(r1, i, deltas);
    assert r1.blocks[i := TextBlock("", p.citations)] == r.blocks + [TextBlock("", p.citations)];
  }

  lemma OpenTextFollows(p: Projection, r: Reader)
    requires InStep(p, r) && p.started
    ensures Follows(p, r, OpenText(p), Read(Some(r), OpenText(p).chunks))
  {
    hide Read;
    if p.textOpen {
      assert Read(Some(r), []) == Some(r) by { ReadNothing(r); }
    } else {
      ReadOpenText(p, r);
      var r2 := r.(blocks := r.blocks + [TextBlock("", p.citations)], open := {p.blockIndex});
      CrossedStays(p, r, OpenText(p).state, r2);
    }
  }

  lemma ReadNothing(r: Reader)
    ensures Read(Some(r), []) == Some(r)
  {}

  lemma TextDeltaFollows(p: Projection, r: Reader, text: string)
    requires InStep(p, r) && p.textOpen
    ensures var o := Out(p.(text := p.text + text), [BlockDelta(p.textIndex, TextDelta(text))]);
            Follows(p, r, o, Read(Some(r), o.chunks))
  {
    var i := p.textIndex;
    Read1(r, BlockDelta(i, TextDelta(text)));
    var q := p.(text := p.text + text);
    var r1 := r.(blocks := r.blocks[i := TextBlock(p.text + text, r.blocks[i].citations)]);
    CrossedStays(p, r, q, r1);
    if SameBlocks(p, r) {
      assert r1.blocks == p.blocks + PendingText(q);
    }
  }

  lemma EmitTextFollows(p: Projection, r: Reader, text: string)
    requires InStep(p, r)
    ensures Follows(p, r, EmitText(p, text), Read(Some(r), EmitText(p, text).chunks))
  {
    hide InStep, SameBlocks, Crossed, Start, OpenText, Read;
    var p0 := p.(semantic := true);
    SemanticIsInvisible(p, r);
    var a := Start(p0);
    StartFollows(p0, r);
    var r1 := Read(Some(r), a.chunks);
    StartIsStarted(p0);
    var b := OpenText(a.state);
    OpenTextFollows(a.state, r1.value);
    var r2 := Read(r1, b.chunks);
    OpenTextIsOpen(a.state);
    var q := b.state;
    var c := Out(q.(text := q.text + text), [BlockDelta(q.textIndex, TextDelta(text))]);
    TextDeltaFollows(q, r2.value, text);
    ThenFollows(p0, r, a, r1, b, r2);
    ThenFollows(p0, r, a.Then(b), r2, c, Read(r2, c.chunks));
  }

  lemma SemanticIsInvisible(p: Projection, r: Reader)
    ensures var q := p.(semantic := true);
            && (InStep(q, r) <==> InStep(p, r)) && (SameBlocks(q, r) <==> SameBlocks(p, r)) && (Crossed(q, r) <==> Crossed(p, r))
  {}

  lemma StartIsStarted(p: Projection)
    ensures Start(p).state == p.(started := true)
  {}

  lemma OpenTextIsOpen(p: Projection)
    ensures OpenText(p).state.textOpen
  {}

  lemma SettleFollows(p: Projection, r: Reader)
    requires InStep(p, r)
    ensures Follows(p, r, Settle(p), Read(Some(r), Settle(p).chunks))
    ensures Settle(p).state.started && !Settle(p).state.textOpen
  {
    hide InStep, SameBlocks, Crossed, Read;
    var a := Start(p);
    StartFollows(p, r);
    var r1 := Read(Some(r), a.chunks);
    CloseTextFollows(a.state, r1.value);
    ThenFollows(p, r, a, r1, CloseText(a.state), Read(r1, CloseText(a.state).chunks));
  }

  // Fields that the stream does not show may change freely.
  predicate SameView(p: Projection, q: Projection) {
    && q.started == p.started && q.textOpen == p.textOpen && q.textIndex == p.textIndex && q.blockIndex == p.blockIndex
    && q.text == p.text && q.blocks == p.blocks && (p.textOpen ==> q.citations == p.citations)
  }

  lemma SameViewFollows(p: Projection, q: Projection, r: Reader, o: Out, r': Option<Reader>)
    requires SameView(p, q)
    ensures InStep(p, r) ==> InStep(q, r)
    ensures Follows(q, r, o, r') ==> Follows(p, r, o, r')
  {}

  lemma SettledBlockFollows(p: Projection, r: Reader, opening: Block, deltas: seq<Delta>, whole: Block)
    requires InStep(p, r) && ApplyDeltas(Begun(opening), deltas) == Some(whole)
    ensures var o := Settle(p).Then(WholeBlock(Settle(p).state, opening, deltas, whole));
            Follows(p, r, o, Read(Some(r), o.chunks))
  {
    hide InStep, SameBlocks, Crossed, Read, Settle, WholeBlock;
    SettleFollows(p, r);
    var a := Settle(p);
    var r1 := Read(Some(r), a.chunks);
    var b := WholeBlock(a.state, opening, deltas, whole);
    WholeBlockFollows(a.state, r1.value, opening, deltas, whole);
    ThenFollows(p, r, a, r1, b, Read(r1, b.chunks));
  }

  // One delta that holds the whole input.
  lemma ApplyInput(opening: Block, json: string)
    requires opening.ToolUse? || opening.ServerToolUse?
    ensures ApplyDeltas(Begun(opening), [InputDelta(json)]) == Some(opening.(input := json))
  {
    ApplyOne(Begun(opening), InputDelta(json));
    assert "" + json == json;
  }

  lemma ApplyOne(b: Block, d: Delta)
    ensures ApplyDeltas(b, [d]) == ApplyDelta(b, d)
  {
    assert [d][..0] == [];
  }

  lemma ApplyTwo(b: Block, d: Delta, e: Delta)
    requires ApplyDelta(b, d).Some?
    ensures ApplyDeltas(b, [d, e]) == ApplyDelta(ApplyDelta(b, d).value, e)
  {
    assert [d, e][..1] == [d];
    ApplyOne(b, d);
  }

  lemma EmitSignedThinkingFollows(p: Projection, r: Reader, signature: string)
    requires InStep(p, r)
    ensures Follows(p, r, EmitSignedThinking(p, signature), Read(Some(r), EmitSignedThinking(p, signature).chunks))
  {
    hide InStep, SameBlocks, Crossed, Read, Settle, WholeBlock, Trim;
    var o := EmitSignedThinking(p, signature);
    var r' := Read(Some(r), o.chunks);
    var q := p.(thinking := "");
    if Trim(signature) == "" || Trim(p.thinking) == "" {
      ReadNothing(r);
      SameViewFollows(p, q, r, o, r');
    } else {
      var q1 := q.(semantic := true);
      SameViewFollows(p, q1, r, o, r');
      ApplyTwo(ThinkingBlock("", ""), ThinkingDelta(p.thinking), SignatureDelta(signature));
      assert "" + p.thinking == p.thinking && "" + signature == signature;
      SettledBlockFollows(q1, r, ThinkingBlock("", ""), [ThinkingDelta(p.thinking), SignatureDelta(signature)],
                          ThinkingBlock(p.thinking, signature));
    }
  }

  lemma SearchStartedFollows(lib: Libraries, p: Projection, r: Reader, s: HostedSearch)
    requires InStep(p, r)
    ensures Follows(p, r, SearchStarted(lib, p, s), Read(Some(r), SearchStarted(lib, p, s).chunks))
    ensures SearchToolId(s) !in p.hostedStarted ==> !SearchStarted(lib, p, s).state.textOpen
    ensures SearchToolId(s) in p.hostedStarted ==> SearchStarted(lib, p, s).state == p
    ensures SearchStarted(lib, p, s).state.started || SearchToolId(s) in p.hostedStarted
  {
    hide InStep, SameBlocks, Crossed, Read, SearchToolId, SearchInput;
    var o := SearchStarted(lib, p, s);
    var id := SearchToolId(s);
    if id in p.hostedStarted {
      ReadNothing(r);
      SameViewFollows(p, p, r, o, Some(r));
      FollowsSelf(p, r);
    } else {
      var q := p.(hostedStarted := p.hostedStarted + {id});
      SameViewFollows(p, q, r, o, Read(Some(r), o.chunks));
      ApplyInput(ServerToolUse(id, SearchToolName(s), "{}"), SearchInput(lib, s));
      SettleFollows(q, r);
      SettledBlockFollows(q, r, ServerToolUse(id, SearchToolName(s), "{}"), [InputDelta(SearchInput(lib, s))],
                          ServerToolUse(id, SearchToolName(s), SearchInput(lib, s)));
    }
  }

  // A search that was announced earlier completes while text is open.
  predicate Crosses(p: Projection, e: Event) {
    e.kind == HostedSearchCompleted && e.search.Some? && SearchToolId(e.search.value) in p.hostedStarted && p.textOpen
  }

  // Nothing is announced before the message starts.
  predicate AnnouncedLate(p: Projection) {
    p.hostedStarted != {} ==> p.started
  }

  lemma SearchCompletedFollows(lib: Libraries, p: Projection, r: Reader, s: HostedSearch)
    requires InStep(p, r) && AnnouncedLate(p)
    ensures var o := SearchCompleted(lib, p, s);
            var r' := Read(Some(r), o.chunks);
            && (!(SearchToolId(s) in p.hostedStarted && p.textOpen) ==> Follows(p, r, o, r'))
            && r'.Some? && InStep(o.state, r'.value)
            && (Crossed(p, r) ==> Crossed(o.state, r'.value))
            && (SearchToolId(s) in p.hostedStarted && p.textOpen && SameBlocks(p, r) ==> Crossed(o.state, r'.value))
  {
    hide Read, Settle, SearchToolId, SearchStarted, SearchResult, SearchCitations;
    var a := SearchStarted(lib, p, s);
    SearchStartedFollows(lib, p, r, s);
    var r1 := Read(Some(r), a.chunks).value;
    var (kind, content) := SearchResult(lib, s);
    var result := ToolResultBlock(kind, SearchToolId(s), content);
    WholeBlockFollows(a.state, r1, result, [], result);
    var b := WholeBlock(a.state, result, [], result);
    ReadConcatenation(Some(r), a.chunks, b.chunks);
  }

  lemma FollowsSelf(p: Projection, r: Reader)
    requires InStep(p, r)
    ensures Follows(p, r, Out(p, []), Some(r))
  {}

  lemma {:induction false} EmitToolsFollows(lib: Libraries, p: Projection, r: Reader, calls: seq<ToolCall>)
    requires InStep(p, r) && p.started && !p.textOpen
    ensures var o := EmitTools(lib, p, calls).0;
            && Follows(p, r, o, Read(Some(r), o.chunks))
            && o.state.started && !o.state.textOpen
            && o.state == p.(blocks := o.state.blocks, blockIndex := o.state.blockIndex)
  {
    hide InStep, SameBlocks, Crossed, Read, Trim;
    if calls == [] {
      ReadNothing(r);
      FollowsSelf(p, r);
    } else {
      var call := calls[|calls| - 1];
      EmitToolsFollows(lib, p, r, calls[..|calls| - 1]);
      var (a, ok) := EmitTools(lib, p, calls[..|calls| - 1]);
      var input := ToolInput(lib, call);
      if ok && input.Some? {
        var opening, whole := ToolUse(call.toolCallId, call.name, "{}"), ToolUse(call.toolCallId, call.name, input.value);
        var r1 := Read(Some(r), a.chunks);
        ApplyInput(opening, input.value);
        var b := WholeBlock(a.state, opening, [InputDelta(input.value)], whole);
        WholeBlockFollows(a.state, r1.value, opening, [InputDelta(input.value)], whole);
        ThenFollows(p, r, a, r1, b, Read(r1, b.chunks));
      }
    }
  }

  // The closing chunks are accepted once every block is stopped.
  lemma FinishReads(p: Projection, r: Reader, reason: string)
    requires InStep(p, r) && p.started && !p.textOpen
    ensures Read(Some(r), FinishChunks(p, reason)) == Some(r.(stopping := true, stopped := true))
  {
    var chunks := FinishChunks(p, reason);
    assert chunks[..1] == [MessageDelta(reason, p.facts)];
    Read1(r, MessageDelta(reason, p.facts));
  }

  // ---------------------------------------------------------------------
  // Whole generations
  // ---------------------------------------------------------------------

  // Whether a search completed under an open text block while the stream ran.
  function CrossedIn(lib: Libraries, s: Session, events: seq<Event>): bool {
    if events == [] then false
    else
      var before := Run(lib, s, events[..|events| - 1]);
      || CrossedIn(lib, s, events[..|events| - 1])
      || (before.status == Running && Crosses(before.p, events[|events| - 1]))
  }

  // The client's view after a session, given whether blocks crossed.
  ghost predicate Agrees(s: Session, crossed: bool) {
    var r := Read(Some(NEW_READER), s.stream);
    && r.Some?
    && match s.status
       case Running =>
         && InStep(s.p, r.value) && AnnouncedLate(s.p)
         && (if crossed then Crossed(s.p, r.value) else SameBlocks(s.p, r.value))
       case Finished(_) =>
         && r.value.started && r.value.stopped && r.value.open == {} && !s.p.textOpen
         && (if crossed then Crossed(s.p, r.value) else r.value.blocks == s.p.blocks)
       case Failed => true
  }

  // The same agreement, one step at a time.
  ghost predicate StepAgrees(o: Outcome, r': Option<Reader>, crossed: bool) {
    && r'.Some?
    && match o.status
       case Running =>
         && InStep(o.state, r'.value) && AnnouncedLate(o.state)
         && (if crossed then Crossed(o.state, r'.value) else SameBlocks(o.state, r'.value))
       case Finished(_) =>
         && r'.value.started && r'.value.stopped && r'.value.open == {} && !o.state.textOpen
         && (if crossed then Crossed(o.state, r'.value) else r'.value.blocks == o.state.blocks)
       case Failed => true
  }

  ghost predicate Agreeing(p: Projection, r: Reader, crossed: bool) {
    InStep(p, r) && AnnouncedLate(p) && if crossed then Crossed(p, r) else SameBlocks(p, r)
  }

  lemma FollowAgrees(p: Projection, r: Reader, o: Out, crossed: bool)
    requires Agreeing(p, r, crossed) && Follows(p, r, o, Read(Some(r), o.chunks)) && AnnouncedLate(o.state)
    ensures StepAgrees(Outcome(o.state, o.chunks, Running), Read(Some(r), o.chunks), crossed)
  {}

  lemma FinishAgrees(p: Projection, r: Reader, o: Out, reason: string, park: bool, crossed: bool)
    requires Agreeing(p, r, crossed) && Follows(p, r, o, Read(Some(r), o.chunks)) && o.state.started && !o.state.textOpen
    ensures var chunks := o.chunks + FinishChunks(o.state, reason);
            StepAgrees(Outcome(o.state, chunks, Finished(park)), Read(Some(r), chunks), crossed)
  {
    hide Read, FinishChunks;
    var r1 := Read(Some(r), o.chunks).value;
    ReadConcatenation(Some(r), o.chunks, FinishChunks(o.state, reason));
    FinishReads(o.state, r1, reason);
    CrossedStays(o.state, r1, o.state, r1.(stopping := true, stopped := true));
  }

  lemma ToolHandoffAgrees(lib: Libraries, p: Projection, r: Reader, park: bool, crossed: bool)
    requires Agreeing(p, r, crossed)
    ensures var o := ToolHandoff(lib, p, park); StepAgrees(o, Read(Some(r), o.chunks), crossed)
  {
    hide Read, Agreeing, InStep, SameBlocks, Crossed, Settle, EmitTools, FinishChunks;
    assert InStep(p, r) by { AgreeingIsInStep(p, r, crossed); }
    ReadNothing(r);
    if p.toolCalls != [] {
      var a := Settle(p);
      SettleFollows(p, r);
      var r1 := Read(Some(r), a.chunks);
      var (b, ok) := EmitTools(lib, a.state, p.toolCalls);
      EmitToolsFollows(lib, a.state, r1.value, p.toolCalls);
      ThenFollows(p, r, a, r1, b, Read(r1, b.chunks));
      if ok {
        FinishAgrees(p, r, a.Then(b), "tool_use", park, crossed);
      }
    }
  }

  lemma AgreeingIsInStep(p: Projection, r: Reader, crossed: bool)
    requires Agreeing(p, r, crossed)
    ensures InStep(p, r) && AnnouncedLate(p)
  {}

  // Fields the client never sees may change under an agreement.
  lemma SameViewAgrees(p: Projection, q: Projection, r: Reader, crossed: bool)
    requires Agreeing(p, r, crossed) && SameView(p, q) && q.hostedStarted == p.hostedStarted
    ensures Agreeing(q, r, crossed)
  {
    assert PendingText(q) == PendingText(p);
    if crossed {
      CrossedStays(p, r, q, r);
    }
  }

  lemma SearchCompletedAgrees(lib: Libraries, p: Projection, r: Reader, s: HostedSearch, crossed: bool)
    requires Agreeing(p, r, crossed)
    ensures var o := SearchCompleted(lib, p, s);
            StepAgrees(Outcome(o.state, o.chunks, Running), Read(Some(r), o.chunks),
                       crossed || (SearchToolId(s) in p.hostedStarted && p.textOpen))
  {
    hide Read, InStep, SameBlocks, Crossed, SearchCompleted, SearchToolId;
    SearchCompletedFollows(lib, p, r, s);
    SearchKeepsLate(lib, p, s);
  }

  lemma SearchKeepsLate(lib: Libraries, p: Projection, s: HostedSearch)
    requires AnnouncedLate(p)
    ensures AnnouncedLate(SearchStarted(lib, p, s).state) && AnnouncedLate(SearchCompleted(lib, p, s).state)
  {
    hide SearchToolId, SearchInput, SearchResult, SearchCitations;
  }

  lemma SearchEventAgrees(lib: Libraries, p0: Projection, r: Reader, e: Event, crossed: bool)
    requires Agreeing(p0, r, crossed) && (e.kind == HostedSearchStarted || e.kind == HostedSearchCompleted)
    ensures var o := Handle(lib, p0, e); StepAgrees(o, Read(Some(r), o.chunks), crossed || Crosses(p0, e))
  {
    hide Read, Agreeing, InStep, SameBlocks, Crossed, Observe, EmitText, EmitSignedThinking, SearchStarted,
        SearchCompleted, ToolHandoff, Settle, SearchToolId;
    var q := p0.(facts := Observe(p0.facts, e), semantic := true);
    SameViewAgrees(p0, q, r, crossed);
    AgreeingIsInStep(q, r, crossed);
    if e.search.None? {
      QuietAgrees(q, r, crossed);
    } else if e.kind == HostedSearchStarted {
      SearchStartedFollows(lib, q, r, e.search.value);
      SearchKeepsLate(lib, q, e.search.value);
      FollowAgrees(q, r, SearchStarted(lib, q, e.search.value), crossed);
    } else {
      SearchCompletedAgrees(lib, q, r, e.search.value, crossed);
    }
  }

  lemma HandleAgrees(lib: Libraries, p0: Projection, r: Reader, e: Event, crossed: bool)
    requires Agreeing(p0, r, crossed)
    ensures var o := Handle(lib, p0, e); StepAgrees(o, Read(Some(r), o.chunks), crossed || Crosses(p0, e))
  {
    hide Read, Agreeing, InStep, SameBlocks, Crossed, Observe, EmitText, EmitSignedThinking, SearchStarted,
        SearchCompleted, ToolHandoff, Settle, SearchToolId;
    var p := p0.(facts := Observe(p0.facts, e));
    SameViewAgrees(p0, p, r, crossed);
    AgreeingIsInStep(p, r, crossed);
    var o := Handle(lib, p0, e);
    match e.kind {
      case HostedSearchStarted => SearchEventAgrees(lib, p0, r, e, crossed);
      case HostedSearchCompleted => SearchEventAgrees(lib, p0, r, e, crossed);
      case Text =>
        EmitTextFollows(p, r, e.text);
        TextKeepsLate(p, e.text, e.signature);
        FollowAgrees(p, r, EmitText(p, e.text), crossed);
      case ThinkingCompleted =>
        EmitSignedThinkingFollows(p, r, e.signature);
        TextKeepsLate(p, e.text, e.signature);
        FollowAgrees(p, r, EmitSignedThinking(p, e.signature), crossed);
      case TurnEnded => ToolHandoffAgrees(lib, p, r, true, crossed);
      case Done =>
        if p.historyTurn && p.toolCalls != [] {
          ToolHandoffAgrees(lib, p, r, false, crossed);
        } else {
          SettleFollows(p, r);
          FinishAgrees(p, r, Settle(p), "end_turn", false, crossed);
        }
      case _ =>
        SameViewAgrees(p0, o.state, r, crossed);
        QuietAgrees(o.state, r, crossed);
    }
  }

  lemma TextKeepsLate(p: Projection, text: string, signature: string)
    requires AnnouncedLate(p)
    ensures AnnouncedLate(EmitText(p, text).state) && AnnouncedLate(EmitSignedThinking(p, signature).state)
  {
    hide Trim;
  }

  lemma QuietAgrees(p: Projection, r: Reader, crossed: bool)
    requires Agreeing(p, r, crossed)
    ensures StepAgrees(Outcome(p, [], Running), Read(Some(r), []), crossed)
  {}

  lemma {:induction false} RunAgrees(lib: Libraries, historyTurn: bool, measured: bool, events: seq<Event>)
    ensures var s := Run(lib, NewSession(historyTurn, measured), events);
            Agrees(s, CrossedIn(lib, NewSession(historyTurn, measured), events))
  {
    hide Handle, Read, InStep, SameBlocks, Crossed, Crosses, Observe;
    var s0 := NewSession(historyTurn, measured);
    if events == [] {
      ReadNothing(NEW_READER);
      FreshAgrees(historyTurn, measured);
    } else {
      var n := |events| - 1;
      var s := Run(lib, s0, events[..n]);
      RunAgrees(lib, historyTurn, measured, events[..n]);
      if s.status == Running {
        var r := Read(Some(NEW_READER), s.stream).value;
        HandleAgrees(lib, s.p, r, events[n], CrossedIn(lib, s0, events[..n]));
        ReadConcatenation(Some(NEW_READER), s.stream, Handle(lib, s.p, events[n]).chunks);
      }
    }
  }

  lemma FreshAgrees(historyTurn: bool, measured: bool)
    ensures Agreeing(NewProjection(historyTurn, measured), NEW_READER, false)
  {}

  // Every stream is well formed as far as it goes; a finished one is complete;
  // and the client reassembles exactly the blocks of the non-stream body if and
  // only if no announced search completed under an open text block.
  lemma StreamReassemblesIffUncrossed(lib: Libraries, historyTurn: bool, measured: bool, events: seq<Event>)
    ensures var s := Run(lib, NewSession(historyTurn, measured), events);
            var r := Read(Some(NEW_READER), s.stream);
            && r.Some?
            && (s.status.Finished? ==>
                  && r.value.started && r.value.stopped && r.value.open == {}
                  && (r.value.blocks == NonStream(s.p).content
                      <==> !CrossedIn(lib, NewSession(historyTurn, measured), events)))
  {
    hide Run, Read, CrossedIn, InStep, SameBlocks;
    RunAgrees(lib, historyTurn, measured, events);
  }

  // ---------------------------------------------------------------------
  // An interrupted text
  // ---------------------------------------------------------------------

  function SearchEvent(kind: EventType, text: string): Event {
    Event(kind, text, "", 0, 0, None, None, None,
          if kind == HostedSearchStarted || kind == HostedSearchCompleted
          then Some(HostedSearch("1", "web_search", "q", "", "", None, "", "")) else None,
          "", map[])
  }

  // A search is announced, text begins, and the search completes.
  const INTERRUPTED_TEXT: seq<Event> := [
    SearchEvent(HostedSearchStarted, ""), SearchEvent(Text, "a"), SearchEvent(HostedSearchCompleted, ""), SearchEvent(Done, "")
  ]

  lemma AfterLast(lib: Libraries, s: Session, events: seq<Event>, k: nat)
    requires k < |events|
    ensures Run(lib, s, events[..k + 1]) == Next(lib, Run(lib, s, events[..k]), events[k])
    ensures CrossedIn(lib, s, events[..k + 1]) <==>
              CrossedIn(lib, s, events[..k])
              || (Run(lib, s, events[..k]).status == Running && Crosses(Run(lib, s, events[..k]).p, events[k]))
  {
    hide Next, Crosses;
    assert events[..k + 1][..k] == events[..k];
  }

  // The projection after each of the events.
  lemma InterruptedStates(lib: Libraries, p0: Projection)
    requires p0 == NewProjection(false, false)
    ensures var (o1, id) := (Handle(lib, p0, INTERRUPTED_TEXT[0]), SearchToolId(INTERRUPTED_TEXT[0].search.value));
            && o1.status == Running && o1.state.hostedStarted == {id} && o1.state.started
            && var o2 := Handle(lib, o1.state, INTERRUPTED_TEXT[1]);
            && o2.status == Running && o2.state.textOpen && o2.state.hostedStarted == {id}
            && o2.state.text == "a" && o2.state.started && |o2.state.blocks| == 1
            && o2.state.toolCalls == [] && !o2.state.historyTurn && o2.state.citations == []
  {
    hide Observe, Trim, SearchInput;
  }

  lemma InterruptedCompletes(lib: Libraries, p2: Projection)
    requires p2.textOpen && p2.started && p2.hostedStarted == {SearchToolId(INTERRUPTED_TEXT[2].search.value)}
    requires !p2.historyTurn && p2.text == "a" && p2.citations == []
    ensures Crosses(p2, INTERRUPTED_TEXT[2])
    ensures var o3 := Handle(lib, p2, INTERRUPTED_TEXT[2]);
            && o3.status == Running
            && |o3.state.blocks| == |p2.blocks| + 1 && o3.state.blocks[|p2.blocks|].ToolResultBlock?
            && o3.state.started && o3.state.textOpen && !o3.state.historyTurn && o3.state.text == "a" && o3.state.citations == []
  {
    hide Observe, SearchToolId, SearchInput;
    assert UsableReferences(lib, []) == [];
  }

  lemma InterruptedEnds(lib: Libraries, p3: Projection)
    requires p3.textOpen && p3.started && !p3.historyTurn && p3.text == "a" && p3.citations == []
    ensures var o4 := Handle(lib, p3, INTERRUPTED_TEXT[3]);
            o4.status.Finished? && o4.state.blocks == p3.blocks + [TextBlock("a", [])]
  {
    hide Observe, ToolHandoff;
  }

  // There the answer has the result before the text, and the stream has not.
  lemma InterruptedTextDiffers(lib: Libraries)
    ensures var s := Run(lib, NewSession(false, false), INTERRUPTED_TEXT);
            var r := Read(Some(NEW_READER), s.stream);
            && s.status.Finished? && r.Some? && r.value.blocks != NonStream(s.p).content
            && |NonStream(s.p).content| == 3
            && NonStream(s.p).content[1].ToolResultBlock? && NonStream(s.p).content[2] == TextBlock("a", [])
  {
    hide Run, CrossedIn, Handle, Read, Crosses, SearchToolId;
    var (s0, events) := (NewSession(false, false), INTERRUPTED_TEXT);
    StreamReassemblesIffUncrossed(lib, false, false, events);
    assert events[..0] == [] && events[..4] == events;
    assert Run(lib, s0, []) == s0 by { RunOfNothing(lib, s0); }
    AfterLast(lib, s0, events, 0);
    AfterLast(lib, s0, events, 1);
    AfterLast(lib, s0, events, 2);
    AfterLast(lib, s0, events, 3);
    InterruptedStates(lib, s0.p);
    InterruptedCompletes(lib, Run(lib, s0, events[..2]).p);
    InterruptedEnds(lib, Run(lib, s0, events[..3]).p);
  }

  lemma RunOfNothing(lib: Libraries, s: Session)
    ensures Run(lib, s, []) == s
  {}
}
