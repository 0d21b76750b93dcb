// claudeProjection's methods as the source writes them: every method updates the
// fields, buffers what it projects and returns the chunks.
module ClaudeStreams {
  import opened Events
  import opened Usages
  import opened Strings
  import opened ClaudeProjections

  class ClaudeProjection {
    const lib: Libraries
    const historyTurn: bool
    var started: bool
    var semantic: bool
    var textOpen: bool
    var textIndex: nat
    var blockIndex: nat
    var text: string
    var thinking: string
    var toolCalls: seq<ToolCall>
    var blocks: seq<Block>
    var citations: seq<Citation>
    var hostedStarted: set<string>
    var facts: Facts
    var claudeSSE: seq<Chunk>

    function View(): Projection
      reads this
    {
      Projection(historyTurn, started, semantic, textOpen, textIndex, blockIndex, text, thinking, toolCalls, blocks,
                 citations, hostedStarted, facts)
    }

    constructor (lib: Libraries, historyTurn: bool, measured: bool)
      ensures View() == NewProjection(historyTurn, measured) && claudeSSE == [] && this.lib == lib
    {
      this.lib, this.historyTurn := lib, historyTurn;
      started, semantic, textOpen, textIndex, blockIndex := false, false, false, 0, 0;
      text, thinking, toolCalls, blocks, citations, hostedStarted := "", "", [], [], [], {};
      facts, claudeSSE := NewFacts(measured), [];
    }

    // project: buffers a chunk and hands it on.
    method Project(chunk: Chunk) returns (chunks: seq<Chunk>)
      modifies this`claudeSSE
      ensures chunks == [chunk] && claudeSSE == old(claudeSSE) + [chunk]
    {
      claudeSSE := claudeSSE + [chunk];
      return [chunk];
    }

    method StartMessage() returns (chunks: seq<Chunk>)
      modifies this`started, this`claudeSSE
      ensures Out(View(), chunks) == Start(old(View()))
      ensures claudeSSE == old(claudeSSE) + chunks
    {
      if started {
        return [];
      }
      started := true;
      chunks := Project(MessageStart);
    }

    method StopText() returns (chunks: seq<Chunk>)
      modifies this`textOpen, this`text, this`blocks, this`claudeSSE
      ensures Out(View(), chunks) == CloseText(old(View()))
      ensures claudeSSE == old(claudeSSE) + chunks
    {
      if !textOpen {
        return [];
      }
      textOpen := false;
      var textBlock := TextBlock(text, citations);
      text := "";
      blocks := blocks + [textBlock];
      chunks := Project(BlockStop(textIndex));
    }

    method NextBlock() returns (index: nat)
      modifies this`blockIndex
      ensures index == old(blockIndex) && blockIndex == index + 1
    {
      index := blockIndex;
      blockIndex := blockIndex + 1;
    }

    // start followed by closeText, as most blocks begin.
    method SettleMessage() returns (chunks: seq<Chunk>)
      modifies this
      ensures Out(View(), chunks) == Settle(old(View()))
      ensures claudeSSE == old(claudeSSE) + chunks
    {
      chunks := StartMessage();
      var more := StopText();
      chunks := chunks + more;
    }

    // Records a block and projects its start, its deltas and its stop.
    method ProjectBlock(opening: Block, deltas: seq<Delta>, whole: Block) returns (chunks: seq<Chunk>)
      modifies this
      ensures Out(View(), chunks) == WholeBlock(old(View()), opening, deltas, whole)
      ensures claudeSSE == old(claudeSSE) + chunks
    {
      var index := NextBlock();
      blocks := blocks + [whole];
      chunks := Project(BlockStart(index, opening));
      ghost var entry := View();
      for k := 0 to |deltas|
        invariant View() == entry
        invariant chunks == [BlockStart(index, opening)] + DeltaChunks(index, deltas)[..k]
        invariant claudeSSE == old(claudeSSE) + chunks
      {
        var more := Project(BlockDelta(index, deltas[k]));
        assert DeltaChunks(index, deltas)[..k + 1] == DeltaChunks(index, deltas)[..k] + more;
        chunks := chunks + more;
      }
      assert DeltaChunks(index, deltas)[..|deltas|] == DeltaChunks(index, deltas);
      var stop := Project(BlockStop(index));
      chunks := chunks + stop;
    }

    method ProjectCitations(index: nat) returns (chunks: seq<Chunk>)
      modifies this`claudeSSE
      ensures chunks == DeltaChunks(index, CitationDeltas(citations))
      ensures claudeSSE == old(claudeSSE) + chunks
    {
      chunks := [];
      for k := 0 to |citations|
        invariant chunks == DeltaChunks(index, CitationDeltas(citations))[..k]
        invariant claudeSSE == old(claudeSSE) + chunks
      {
        var more := Project(BlockDelta(index, CitationDelta(citations[k])));
        assert DeltaChunks(index, CitationDeltas(citations))[..k + 1] == DeltaChunks(index, CitationDeltas(citations))[..k] + more;
        chunks := chunks + more;
      }
    }

    method EnsureText() returns (chunks: seq<Chunk>)
      modifies this
      ensures Out(View(), chunks) == OpenText(old(View()))
      ensures claudeSSE == old(claudeSSE) + chunks
    {
      if textOpen {
        return [];
      }
      textIndex := NextBlock();
      chunks := Project(BlockStart(textIndex, TextBlock("", [])));
      textOpen := true;
      var cited := ProjectCitations(textIndex);
      chunks := chunks + cited;
    }

    method ProjectText(more: string) returns (chunks: seq<Chunk>)
      modifies this
      ensures Out(View(), chunks) == EmitText(old(View()), more)
      ensures claudeSSE == old(claudeSSE) + chunks
    {
      hide Start, OpenText;
      semantic := true;
      chunks := StartMessage();
      var start := EnsureText();
      text := text + more;
      var delta := Project(BlockDelta(textIndex, TextDelta(more)));
      chunks := chunks + start + delta;
    }

    method ProjectSignedThinking(signature: string) returns (chunks: seq<Chunk>)
      modifies this
      ensures Out(View(), chunks) == EmitSignedThinking(old(View()), signature)
      ensures claudeSSE == old(claudeSSE) + chunks
    {
      hide Trim;
      var whole := thinking;
      thinking := "";
      if Trim(signature) == "" || Trim(whole) == "" {
        return [];
      }
      semantic := true;
      chunks := SettleMessage();
      var block := ProjectBlock(ThinkingBlock("", ""), [ThinkingDelta(whole), SignatureDelta(signature)],
                                ThinkingBlock(whole, signature));
      chunks := chunks + block;
    }

    method ProjectSearchStarted(search: HostedSearch) returns (chunks: seq<Chunk>)
      modifies this
      ensures Out(View(), chunks) == SearchStarted(lib, old(View()), search)
      ensures claudeSSE == old(claudeSSE) + chunks
    {
      hide SearchToolId, SearchInput;
      var id := SearchToolId(search);
      if id in hostedStarted {
        return [];
      }
      hostedStarted := hostedStarted + {id};
      chunks := SettleMessage();
      var name, input := SearchToolName(search), SearchInput(lib, search);
      var block := ProjectBlock(ServerToolUse(id, name, "{}"), [InputDelta(input)], ServerToolUse(id, name, input));
      chunks := chunks + block;
    }

    method ProjectSearchCompleted(search: HostedSearch) returns (chunks: seq<Chunk>)
      modifies this
      ensures Out(View(), chunks) == SearchCompleted(lib, old(View()), search)
      ensures claudeSSE == old(claudeSSE) + chunks
    {
      hide SearchToolId, SearchResult, SearchCitations, SearchStarted;
      chunks := ProjectSearchStarted(search);
      var (kind, content) := SearchResult(lib, search);
      var result := ToolResultBlock(kind, SearchToolId(search), content);
      var block := ProjectBlock(result, [], result);
      citations := citations + SearchCitations(lib, search);
      chunks := chunks + block;
    }

    method Finish(reason: string) returns (chunks: seq<Chunk>)
      modifies this`claudeSSE
      ensures chunks == FinishChunks(View(), reason) && claudeSSE == old(claudeSSE) + chunks
    {
      chunks := Project(MessageDelta(reason, facts));
      var stop := Project(MessageStop);
      chunks := chunks + stop;
    }

    // The tool blocks in order, up to the first call whose arguments do not parse.
    method ProjectTools(calls: seq<ToolCall>) returns (chunks: seq<Chunk>, ok: bool)
      modifies this
      ensures (Out(View(), chunks), ok) == EmitTools(lib, old(View()), calls)
      ensures claudeSSE == old(claudeSSE) + chunks
    {
      hide Trim, WholeBlock;
      chunks, ok := [], true;
      for i := 0 to |calls|
        invariant ok && (Out(View(), chunks), ok) == EmitTools(lib, old(View()), calls[..i])
        invariant claudeSSE == old(claudeSSE) + chunks
      {
        var call := calls[i];
        assert calls[..i + 1][..i] == calls[..i];
        var input := Some("{}");
        if Trim(call.arguments) != "" {
          input := lib.parse(call.arguments);
        }
        if input.None? {
          RejectedToolStays(lib, old(View()), calls, i + 1);
          return chunks, false;
        }
        var block := ProjectBlock(ToolUse(call.toolCallId, call.name, "{}"), [InputDelta(input.value)],
                                  ToolUse(call.toolCallId, call.name, input.value));
        chunks := chunks + block;
      }
      assert calls[..|calls|] == calls;
    }

    // toolHandoff: a call whose arguments do not parse ends the projection, and
    // the chunks buffered for this event are never returned.
    method HandOff(park: bool) returns (chunks: seq<Chunk>, status: Status)
      modifies this
      ensures Outcome(View(), chunks, status) == ToolHandoff(lib, old(View()), park)
      ensures status != Failed ==> claudeSSE == old(claudeSSE) + chunks
    {
      hide Settle, EmitTools, FinishChunks;
      if |toolCalls| == 0 {
        return [], Failed;
      }
      var settled := SettleMessage();
      SettleKeepsTools(old(View()));
      var tools, ok := ProjectTools(toolCalls);
      if !ok {
        return [], Failed;
      }
      var last := Finish("tool_use");
      return settled + tools + last, Finished(park);
    }

    method HandleEvent(e: Event) returns (chunks: seq<Chunk>, status: Status)
      modifies this
      ensures Outcome(View(), chunks, status) == Handle(lib, old(View()), e)
      ensures status != Failed ==> claudeSSE == old(claudeSSE) + chunks
    {
      hide Observe, EmitText, EmitSignedThinking, SearchStarted, SearchCompleted, ToolHandoff, Settle;
      facts := Observe(facts, e);
      chunks, status := [], Running;
      match e.kind {
        case HostedSearchStarted =>
          semantic := true;
          if e.search.Some? {
            chunks := ProjectSearchStarted(e.search.value);
          }
        case HostedSearchCompleted =>
          semantic := true;
          if e.search.Some? {
            chunks := ProjectSearchCompleted(e.search.value);
          }
        case ToolCallEvent =>
          if e.toolCall.Some? {
            semantic := true;
            toolCalls := toolCalls + [e.toolCall.value];
          }
        case Text => chunks := ProjectText(e.text);
        case Thinking =>
          if e.text != "" {
            thinking := thinking + e.text;
          }
        case ThinkingCompleted => chunks := ProjectSignedThinking(e.signature);
        case TurnEnded => chunks, status := HandOff(true);
        case Done =>
          if historyTurn && |toolCalls| > 0 {
            chunks, status := HandOff(false);
          } else {
            chunks := SettleMessage();
            var last := Finish("end_turn");
            chunks, status := chunks + last, Finished(false);
          }
        case _ =>
      }
    }
  }

  lemma SettleKeepsTools(p: Projection)
    ensures Settle(p).state.toolCalls == p.toolCalls
  {}

  lemma {:induction false} RejectedToolStays(lib: Libraries, p: Projection, calls: seq<ToolCall>, k: nat)
    requires k <= |calls| && !EmitTools(lib, p, calls[..k]).1
    ensures EmitTools(lib, p, calls) == (EmitTools(lib, p, calls[..k]).0, false)
  {
    hide Trim;
    if k == |calls| {
      assert calls[..k] == calls;
    } else {
      assert calls[..|calls| - 1][..k] == calls[..k];
      RejectedToolStays(lib, p, calls[..|calls| - 1], k);
    }
  }
}
