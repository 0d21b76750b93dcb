// full_history.go: a client's message history rebuilt as native messages whose
// tool calls and results pair up.
module FullHistories {
  import opened Events
  import opened Strings
  import opened ToolIds

  // ---------------------------------------------------------------------
  // Input and output
  // ---------------------------------------------------------------------

  // A content block as JSON and the content parsers leave it; a part that they
  // refuse is None, and a result that cannot be taken names its error.  Any block
  // may carry a tool_use_id.
  datatype Kind =
    | TextBlock(text: Option<string>, citations: Option<string>)
    | MediaBlock(converted: Option<seq<string>>)
    | ThinkingBlock(thinking: string, signature: string)
    | RedactedBlock(data: string)
    | CompactionBlock(summary: Option<string>)
    | UploadBlock
    | CallBlock(server: bool, id: string, name: string, input: Option<string>)
    | ResultBlock(server: bool, result: Outcome<Answer>)
    | OtherBlock
    | NoObject

  datatype Block = Block(kind: Kind, toolUseId: string)

  // What a tool returned: its value, whether it failed, and the attachments next
  // to it; only some attachments are recognised as media later on.
  datatype Answer = Answer(value: string, isError: bool, attachments: Option<seq<Attachment>>)

  datatype Attachment = Attachment(content: string, isMedia: bool)

  datatype Content = PlainText(text: string) | Blocks(blocks: seq<Block>) | BadContent

  datatype Message = Message(role: string, content: Content) | NotAMessage

  // Native parts.  A placeholder closes a call that was never answered; a label
  // introduces lifted media.
  datatype Part =
    | TextPart(text: string)
    | AttachedPart(content: string)
    | ReasoningPart(text: string, signature: string)
    | RedactedPart(data: string)
    | CallPart(id: string, name: string, input: string)
    | ResultPart(id: string, name: string, answer: Answer)
    | Placeholder(id: string, name: string)
    | Label(id: string, name: string)

  datatype Native = Native(role: string, parts: seq<Part>, id: string)

  datatype HistoryError = InvalidHistory | Unprocessable | Conflict

  datatype Outcome<T> = Ok(value: T) | Err(error: HistoryError)

  // ---------------------------------------------------------------------
  // The rebuild, block by block
  // ---------------------------------------------------------------------

  // `calls` are the keys of `names` in the order they came.
  datatype State = State(
    out: seq<Native>,
    parts: seq<Part>,
    calls: seq<string>,
    names: map<string, string>,
    server: set<string>,
    resolved: set<string>)

  const EMPTY := State([], [], [], map[], {}, {})

  function AppendMessage(out: seq<Native>, role: string, parts: seq<Part>, id: string): seq<Native> {
    if parts == [] then out else out + [Native(role, parts, id)]
  }

  predicate Unanswered(st: State, id: string, answeredNow: set<string>) {
    id in st.names && id !in st.resolved && id !in st.server && id !in answeredNow
  }

  // flushUnansweredCallerCalls over the first k of the sorted call ids.
  function Flush(st: State, ids: seq<string>, answeredNow: set<string>): State {
    if ids == [] then st
    else
      var (t, id) := (Flush(st, ids[..|ids| - 1], answeredNow), ids[|ids| - 1]);
      if !Unanswered(t, id, answeredNow) then t
      else t.(out := t.out + [Native("tool", [Placeholder(id, t.names[id])], id)], resolved := t.resolved + {id})
  }

  function FlushAll(st: State, answeredNow: set<string>): State {
    Flush(st, SortedSet(st.calls), answeredNow)
  }

  // toolResultIDs: the ids that any block of the message answers.
  function AnsweredIds(content: Content): set<string> {
    if content.Blocks? then (set b | b in content.blocks :: Trim(b.toolUseId)) - {""} else {}
  }

  // The parts of a block that depend on nothing else.
  function TextParts(kind: Kind, omit: bool): Outcome<seq<Part>> {
    match kind
    case TextBlock(text, citations) =>
      if text.None? then Err(InvalidHistory)
      else if omit then Ok([])
      else
        Ok([TextPart(text.value)]
           + if citations.Some? then [TextPart("Source citations for the preceding text: " + citations.value)] else [])
    case MediaBlock(converted) =>
      if omit then Ok([])
      else if converted.None? then Err(Unprocessable)
      else Ok(seq(|converted.value|, i requires 0 <= i < |converted.value| => AttachedPart(converted.value[i])))
    case _ => Err(InvalidHistory)
  }

  function ReasoningParts(kind: Kind, role: string): Outcome<seq<Part>> {
    if role != "assistant" then Err(InvalidHistory)
    else match kind
      case ThinkingBlock(text, signature) => Ok([ReasoningPart(text, Trim(signature))])
      case RedactedBlock(data) => Ok([RedactedPart(Trim(data))])
      case _ => Err(InvalidHistory)
  }

  function SummaryText(summary: string): string {
    "[Compacted conversation summary from the previous provider]\n" + summary
  }

  function AddCall(st: State, role: string, kind: Kind): Outcome<State>
    requires kind.CallBlock?
  {
    var (id, name) := (Trim(kind.id), Trim(kind.name));
    if role != "assistant" || id == "" || name == "" || id in st.names || kind.input.None? then Err(InvalidHistory)
    else
      Ok(st.(calls := st.calls + [id], names := st.names[id := name],
          server := if kind.server then st.server + {id} else st.server,
             parts := st.parts + [CallPart(id, name, kind.input.value)]))
  }

  function AddResult(st: State, role: string, block: Block): Outcome<State>
    requires block.kind.ResultBlock?
  {
    var id := Trim(block.toolUseId);
    if id == "" || id !in st.names || id in st.resolved then Err(InvalidHistory)
    else if block.kind.server != (id in st.server) then Err(InvalidHistory)
    else if block.kind.result.Err? then Err(block.kind.result.error)
    else
      var before := AppendMessage(st.out, role, st.parts, "");
      Ok(st.(out := before + [Native("tool", [ResultPart(id, st.names[id], block.kind.result.value)], id)], parts := [],
             resolved := st.resolved + {id}))
  }

  // One content block.
  function AddBlock(st: State, role: string, omit: bool, block: Block): Outcome<State> {
    match block.kind
    case TextBlock(_, _) => AddParts(st, TextParts(block.kind, omit))
    case MediaBlock(_) => AddParts(st, TextParts(block.kind, omit))
    case ThinkingBlock(_, _) => AddParts(st, ReasoningParts(block.kind, role))
    case RedactedBlock(_) => AddParts(st, ReasoningParts(block.kind, role))
    case CompactionBlock(summary) =>
      if role != "assistant" || summary.None? || Trim(summary.value) == "" then Err(InvalidHistory)
      else Ok(EMPTY.(out := [Native("user", [TextPart(SummaryText(summary.value))], "")]))
    case CallBlock(_, _, _, _) => AddCall(st, role, block.kind)
    case ResultBlock(_, _) => AddResult(st, role, block)
    case _ => Err(InvalidHistory)
  }

  function AddParts(st: State, parts: Outcome<seq<Part>>): Outcome<State> {
    if parts.Ok? then Ok(st.(parts := st.parts + parts.value)) else Err(parts.error)
  }

  function AddBlocks(st: State, role: string, omit: bool, blocks: seq<Block>): Outcome<State> {
    if blocks == [] then Ok(st)
    else
      var before := AddBlocks(st, role, omit, blocks[..|blocks| - 1]);
      if before.Err? then before else AddBlock(before.value, role, omit, blocks[|blocks| - 1])
  }

  // One message: a user turn first closes what it does not answer.
  function AddMessage(st: State, m: Message, omit: bool): Outcome<State> {
    if m.NotAMessage? then Err(InvalidHistory)
    else
      var role := Trim(m.role);
      var flushed := if role == "user" then FlushAll(st, AnsweredIds(m.content)) else st;
      match m.content
      case PlainText(text) => Ok(if omit then flushed else flushed.(out := flushed.out + [Native(role, [TextPart(text)], "")]))
      case BadContent => Err(InvalidHistory)
      case Blocks(blocks) =>
        var added := AddBlocks(flushed, role, omit, blocks);
        if added.Err? then added
        else Ok(added.value.(out := AppendMessage(added.value.out, role, added.value.parts, ""), parts := []))
  }

  function AddMessages(messages: seq<Message>, omitLastText: bool, n: nat): Outcome<State>
    requires n <= |messages|
  {
    if n == 0 then Ok(EMPTY)
    else
      var before := AddMessages(messages, omitLastText, n - 1);
      if before.Err? then before else AddMessage(before.value, messages[n - 1], omitLastText && n == |messages|)
  }

  // structuredHistory
  function Structured(messages: seq<Message>, omitLastText: bool): Outcome<seq<Native>> {
    var st := AddMessages(messages, omitLastText, |messages|);
    if st.Err? then Err(st.error)
    else if exists id :: id in st.value.server && id !in st.value.resolved then Err(Conflict)
    else Ok(FlushAll(st.value, {}).out)
  }

  // ---------------------------------------------------------------------
  // Pairing
  // ---------------------------------------------------------------------

  // A call or a result, by id and tool name.
  type Ref = (string, string)

  function CallsOf(parts: seq<Part>): seq<Ref> {
    if parts == [] then []
    else
      var p := parts[|parts| - 1];
      CallsOf(parts[..|parts| - 1]) + if p.CallPart? then [(p.id, p.name)] else []
  }

  function ResultsOf(parts: seq<Part>): seq<Ref> {
    if parts == [] then []
    else
      var p := parts[|parts| - 1];
      ResultsOf(parts[..|parts| - 1]) + if p.ResultPart? || p.Placeholder? then [(p.id, p.name)] else []
  }

  function Calls(out: seq<Native>): seq<Ref> {
    if out == [] then [] else Calls(out[..|out| - 1]) + CallsOf(out[|out| - 1].parts)
  }

  function Results(out: seq<Native>): seq<Ref> {
    if out == [] then [] else Results(out[..|out| - 1]) + ResultsOf(out[|out| - 1].parts)
  }

  predicate DistinctIds(refs: seq<Ref>) {
    forall i, j :: 0 <= i < j < |refs| ==> refs[i].0 != refs[j].0
  }

  predicate Answered(results: seq<Ref>, calls: seq<Ref>) {
    forall r :: r in results ==> r in calls
  }

  // Every result answers a call of a strictly earlier message.
  predicate AnswersEarlier(out: seq<Native>) {
    out == [] || (AnswersEarlier(out[..|out| - 1]) && Answered(ResultsOf(out[|out| - 1].parts), Calls(out[..|out| - 1])))
  }

  // Each call has exactly one result, in a strictly later message and under the
  // same name, and each result has such a call.
  predicate Paired(out: seq<Native>) {
    && DistinctIds(Calls(out)) && DistinctIds(Results(out))
    && Elements(Calls(out)) == Elements(Results(out)) && AnswersEarlier(out)
  }

  function PlaceholdersOf(parts: seq<Part>): set<string> {
    set p | p in parts && p.Placeholder? :: p.id
  }

  function Placeholders(out: seq<Native>): set<string> {
    if out == [] then {} else Placeholders(out[..|out| - 1]) + PlaceholdersOf(out[|out| - 1].parts)
  }

  // What the loop knows of its state.
  predicate CallsInv(st: State) {
    var calls := Calls(st.out) + CallsOf(st.parts);
    && DistinctIds(calls)
    && (forall r :: r in calls ==> r.0 in st.names && st.names[r.0] == r.1)
    && (forall id :: id in st.names ==> (id, st.names[id]) in calls)
    && (forall id :: id in st.names ==> id in st.calls) && (forall id :: id in st.calls ==> id in st.names)
  }

  predicate ResultsInv(st: State) {
    && DistinctIds(Results(st.out)) && ResultsOf(st.parts) == []
    && (forall r :: r in Results(st.out) ==> r.0 in st.resolved && r.0 in st.names && st.names[r.0] == r.1)
    && (forall id :: id in st.resolved ==> id in st.names && (id, st.names[id]) in Results(st.out))
    && AnswersEarlier(st.out)
  }

  predicate ServerInv(st: State) {
    && (forall id :: id in st.server ==> id in st.names)
    && Placeholders(st.out) !! st.server && PlaceholdersOf(st.parts) == {}
    && Placeholders(st.out) <= st.resolved
  }

  predicate Inv(st: State) {
    CallsInv(st) && ResultsInv(st) && ServerInv(st)
  }

  lemma LastMessage(out: seq<Native>, m: Native)
    ensures Calls(out + [m]) == Calls(out) + CallsOf(m.parts) && Results(out + [m]) == Results(out) + ResultsOf(m.parts)
    ensures Placeholders(out + [m]) == Placeholders(out) + PlaceholdersOf(m.parts)
    ensures AnswersEarlier(out + [m]) <==> AnswersEarlier(out) && Answered(ResultsOf(m.parts), Calls(out))
  {
    assert (out + [m])[..|out|] == out;
  }

  lemma OnePart(p: Part)
    ensures CallsOf([p]) == (if p.CallPart? then [(p.id, p.name)] else [])
    ensures ResultsOf([p]) == (if p.ResultPart? || p.Placeholder? then [(p.id, p.name)] else [])
    ensures PlaceholdersOf([p]) == (if p.Placeholder? then {p.id} else {})
  {
    assert [p][..0] == [];
  }

  lemma {:induction false} MoreCalls(a: seq<Part>, b: seq<Part>)
    ensures CallsOf(a + b) == CallsOf(a) + CallsOf(b)
  {
    if b == [] {
      assert a + b == a;
    } else {
      MoreCalls(a, b[..|b| - 1]);
      assert (a + b)[..|a + b| - 1] == a + b[..|b| - 1];
    }
  }

  lemma {:induction false} MoreResults(a: seq<Part>, b: seq<Part>)
    ensures ResultsOf(a + b) == ResultsOf(a) + ResultsOf(b)
  {
    if b == [] {
      assert a + b == a;
    } else {
      MoreResults(a, b[..|b| - 1]);
      assert (a + b)[..|a + b| - 1] == a + b[..|b| - 1];
    }
  }

  lemma MoreParts(a: seq<Part>, b: seq<Part>)
    ensures CallsOf(a + b) == CallsOf(a) + CallsOf(b) && ResultsOf(a + b) == ResultsOf(a) + ResultsOf(b)
    ensures PlaceholdersOf(a + b) == PlaceholdersOf(a) + PlaceholdersOf(b)
  {
    hide CallsOf, ResultsOf;
    MoreCalls(a, b);
    MoreResults(a, b);
  }

  lemma NoParts()
    ensures CallsOf([]) == [] && ResultsOf([]) == [] && PlaceholdersOf([]) == {}
  {}

  // A finished group of parts becomes a message.
  lemma AppendKeepsInv(st: State, role: string)
    requires Inv(st)
    ensures Inv(st.(out := AppendMessage(st.out, role, st.parts, ""), parts := []))
  {
    if st.parts != [] {
      LastMessage(st.out, Native(role, st.parts, ""));
      assert Calls(st.out) + CallsOf(st.parts) + CallsOf([]) == Calls(st.out) + CallsOf(st.parts);
      assert Results(st.out) + [] == Results(st.out);
    }
  }

  // A call that is answered, by a result or a placeholder.
  lemma AnswerKeepsInv(st: State, id: string, p: Part)
    requires Inv(st) && st.parts == [] && id in st.names && id !in st.resolved
    requires (p.ResultPart? || (p.Placeholder? && id !in st.server)) && p.id == id && p.name == st.names[id]
    ensures Inv(st.(out := st.out + [Native("tool", [p], id)], resolved := st.resolved + {id}))
  {
    hide Calls, CallsOf, Results, ResultsOf, Placeholders, PlaceholdersOf, AnswersEarlier;
    var m := Native("tool", [p], id);
    var r := (id, st.names[id]);
    LastMessage(st.out, m);
    OnePart(p);
    NoParts();
    assert Calls(st.out) + [] == Calls(st.out);
    assert r in Calls(st.out);
    forall x | x in Results(st.out)
      ensures x.0 != id
    {
      assert x.0 in st.resolved;
    }
  }

  lemma {:induction false} FlushKeepsInv(st: State, ids: seq<string>, answeredNow: set<string>)
    requires Inv(st) && st.parts == []
    ensures var t := Flush(st, ids, answeredNow);
            Inv(t) && t == st.(out := t.out, resolved := t.resolved) && st.resolved <= t.resolved
  {
    hide Inv;
    if ids != [] {
      var (n, id) := (|ids| - 1, ids[|ids| - 1]);
      FlushKeepsInv(st, ids[..n], answeredNow);
      var t := Flush(st, ids[..n], answeredNow);
      if Unanswered(t, id, answeredNow) {
        AnswerKeepsInv(t, id, Placeholder(id, t.names[id]));
      }
    }
  }

  lemma PartsKeepInv(st: State, more: seq<Part>)
    requires Inv(st) && CallsOf(more) == [] && ResultsOf(more) == [] && PlaceholdersOf(more) == {}
    ensures Inv(st.(parts := st.parts + more))
  {
    MoreParts(st.parts, more);
    assert CallsOf(st.parts) + [] == CallsOf(st.parts);
  }

  lemma {:induction false} PlainParts(parts: seq<Part>)
    requires forall p :: p in parts ==> !p.CallPart? && !p.ResultPart? && !p.Placeholder?
    ensures CallsOf(parts) == [] && ResultsOf(parts) == [] && PlaceholdersOf(parts) == {}
  {
    if parts != [] {
      PlainParts(parts[..|parts| - 1]);
    }
  }

  lemma PlainPartsKeepInv(st: State, more: seq<Part>)
    requires Inv(st) && forall p :: p in more ==> !p.CallPart? && !p.ResultPart? && !p.Placeholder?
    ensures Inv(st.(parts := st.parts + more))
  {
    hide Inv;
    PlainParts(more);
    PartsKeepInv(st, more);
  }

  lemma AddCallKeepsInv(st: State, role: string, kind: Kind)
    requires Inv(st) && kind.CallBlock? && AddCall(st, role, kind).Ok?
    ensures Inv(AddCall(st, role, kind).value)
  {
    hide Trim, Calls, CallsOf, Results, ResultsOf, Placeholders, PlaceholdersOf, AnswersEarlier, DistinctIds;
    var (id, name) := (Trim(kind.id), Trim(kind.name));
    var p := CallPart(id, name, kind.input.value);
    MoreParts(st.parts, [p]);
    OnePart(p);
    var calls := Calls(st.out) + CallsOf(st.parts);
    assert Calls(st.out) + (CallsOf(st.parts) + [(id, name)]) == calls + [(id, name)];
    var t := AddCall(st, role, kind).value;
    CallAdded(st, t, calls, (id, name));
  }

  lemma CallAdded(st: State, t: State, calls: seq<Ref>, r: Ref)
    requires Inv(st) && calls == Calls(st.out) + CallsOf(st.parts) && r.0 !in st.names
    requires Calls(t.out) + CallsOf(t.parts) == calls + [r] && t.out == st.out
    requires t.names == st.names[r.0 := r.1] && t.calls == st.calls + [r.0] && t.resolved == st.resolved
    requires st.server <= t.server <= st.server + {r.0}
    requires ResultsOf(t.parts) == [] && PlaceholdersOf(t.parts) == {}
    ensures Inv(t)
  {
    hide Calls, CallsOf, Results, ResultsOf, Placeholders, PlaceholdersOf, AnswersEarlier;
    NewCallKeepsCalls(st, t, calls, r);
    NewCallKeepsResults(st, t, r);
  }

  lemma NewCallKeepsCalls(st: State, t: State, calls: seq<Ref>, r: Ref)
    requires CallsInv(st) && calls == Calls(st.out) + CallsOf(st.parts) && r.0 !in st.names
    requires Calls(t.out) + CallsOf(t.parts) == calls + [r] && t.names == st.names[r.0 := r.1] && t.calls == st.calls + [r.0]
    ensures CallsInv(t)
  {
    hide Calls, CallsOf;
    forall x | x in calls
      ensures x.0 != r.0
    {
      assert x.0 in st.names;
    }
    assert forall x :: x in calls ==> x in calls + [r];
    assert r in calls + [r];
  }

  lemma NewCallKeepsResults(st: State, t: State, r: Ref)
    requires ResultsInv(st) && r.0 !in st.names && t.out == st.out
    requires t.names == st.names[r.0 := r.1] && t.resolved == st.resolved && ResultsOf(t.parts) == []
    ensures ResultsInv(t)
  {
    hide Results, ResultsOf, AnswersEarlier;
  }

  lemma AddResultKeepsInv(st: State, role: string, block: Block)
    requires Inv(st) && block.kind.ResultBlock? && AddResult(st, role, block).Ok?
    ensures Inv(AddResult(st, role, block).value)
  {
    hide Trim, Inv;
    AppendKeepsInv(st, role);
    var id := Trim(block.toolUseId);
    AnswerKeepsInv(st.(out := AppendMessage(st.out, role, st.parts, ""), parts := []), id,
                   ResultPart(id, st.names[id], block.kind.result.value));
  }

  lemma FreshInv(text: string)
    ensures Inv(EMPTY) && Inv(EMPTY.(out := [Native("user", [TextPart(text)], "")]))
  {
    LastMessage([], Native("user", [TextPart(text)], ""));
    OnePart(TextPart(text));
    assert [] + [Native("user", [TextPart(text)], "")] == [Native("user", [TextPart(text)], "")];
  }

  lemma AddBlockKeepsInv(st: State, role: string, omit: bool, block: Block)
    requires Inv(st) && AddBlock(st, role, omit, block).Ok?
    ensures Inv(AddBlock(st, role, omit, block).value)
  {
    hide Inv, AddCall, AddResult, Trim, SummaryText;
    match block.kind {
      case CallBlock(_, _, _, _) => AddCallKeepsInv(st, role, block.kind);
      case ResultBlock(_, _) => AddResultKeepsInv(st, role, block);
      case CompactionBlock(summary) => FreshInv(SummaryText(summary.value));
      case TextBlock(_, _) => PlainPartsKeepInv(st, TextParts(block.kind, omit).value);
      case MediaBlock(_) => PlainPartsKeepInv(st, TextParts(block.kind, omit).value);
      case ThinkingBlock(_, _) => PlainPartsKeepInv(st, ReasoningParts(block.kind, role).value);
      case RedactedBlock(_) => PlainPartsKeepInv(st, ReasoningParts(block.kind, role).value);
      case _ =>
    }
  }

  lemma {:induction false} AddBlocksKeepInv(st: State, role: string, omit: bool, blocks: seq<Block>)
    requires Inv(st) && AddBlocks(st, role, omit, blocks).Ok?
    ensures Inv(AddBlocks(st, role, omit, blocks).value)
  {
    hide Inv, AddBlock;
    if blocks != [] {
      AddBlocksKeepInv(st, role, omit, blocks[..|blocks| - 1]);
      AddBlockKeepsInv(AddBlocks(st, role, omit, blocks[..|blocks| - 1]).value, role, omit, blocks[|blocks| - 1]);
    }
  }

  lemma AddMessageKeepsInv(st: State, m: Message, omit: bool)
    requires Inv(st) && st.parts == [] && AddMessage(st, m, omit).Ok?
    ensures Inv(AddMessage(st, m, omit).value) && AddMessage(st, m, omit).value.parts == []
  {
    hide Inv, Trim, AddBlocks, Flush, AnsweredIds, SortedSet;
    var role := Trim(m.role);
    FlushKeepsInv(st, SortedSet(st.calls), AnsweredIds(m.content));
    var flushed := if role == "user" then FlushAll(st, AnsweredIds(m.content)) else st;
    match m.content {
      case PlainText(text) =>
        if !omit {
          PlainParts([TextPart(text)]);
          PartsKeepInv(flushed, [TextPart(text)]);
          assert [] + [TextPart(text)] == [TextPart(text)];
          AppendKeepsInv(flushed.(parts := [TextPart(text)]), role);
        }
      case Blocks(blocks) =>
        AddBlocksKeepInv(flushed, role, omit, blocks);
        AppendKeepsInv(AddBlocks(flushed, role, omit, blocks).value, role);
    }
  }

  lemma {:induction false} AddMessagesKeepInv(messages: seq<Message>, omitLastText: bool, n: nat)
    requires n <= |messages| && AddMessages(messages, omitLastText, n).Ok?
    ensures var st := AddMessages(messages, omitLastText, n).value; Inv(st) && st.parts == []
  {
    hide Inv, AddMessage;
    if n == 0 {
      FreshInv("");
    } else {
      AddMessagesKeepInv(messages, omitLastText, n - 1);
      AddMessageKeepsInv(AddMessages(messages, omitLastText, n - 1).value, messages[n - 1], omitLastText && n == |messages|);
    }
  }

  // The last flush leaves no call of the caller open.
  lemma {:induction false} FlushAnswers(st: State, ids: seq<string>)
    ensures var t := Flush(st, ids, {}); forall id :: id in ids && id in st.names && id !in st.server ==> id in t.resolved
    ensures var t := Flush(st, ids, {}); t == st.(out := t.out, resolved := t.resolved) && st.resolved <= t.resolved
  {
    if ids != [] {
      FlushAnswers(st, ids[..|ids| - 1]);
      assert ids == ids[..|ids| - 1] + [ids[|ids| - 1]];
    }
  }

  // A rebuilt history pairs its calls and results, over any mix of compactions,
  // interrupted turns and answers inside a message.
  lemma HistoryIsPaired(messages: seq<Message>, omitLastText: bool)
    requires Structured(messages, omitLastText).Ok?
    ensures Paired(Structured(messages, omitLastText).value)
  {
    hide AddMessages, Inv, Flush, SortedSet;
    AddMessagesKeepInv(messages, omitLastText, |messages|);
    var st := AddMessages(messages, omitLastText, |messages|).value;
    FlushKeepsInv(st, SortedSet(st.calls), {});
    FlushAnswers(st, SortedSet(st.calls));
    AllResolvedIsPaired(st, FlushAll(st, {}));
  }

  lemma AllResolvedIsPaired(st: State, t: State)
    requires Inv(st) && Inv(t) && t == st.(out := t.out, resolved := t.resolved) && t.parts == [] && st.resolved <= t.resolved
    requires forall id :: id in SortedSet(st.calls) && id in st.names && id !in st.server ==> id in t.resolved
    requires forall id :: id in st.server ==> id in st.resolved
    ensures Paired(t.out)
  {
    hide SortedSet, AnswersEarlier, DistinctIds, Placeholders, PlaceholdersOf, ResultsOf;
    assert Calls(t.out) + CallsOf([]) == Calls(t.out);
    forall id | id in t.names
      ensures id in t.resolved
    {
      assert id in Elements(st.calls) && Elements(SortedSet(st.calls)) == Elements(st.calls);
    }
    forall r | r in Calls(t.out)
      ensures r in Results(t.out)
    {
      assert r.0 in t.names && t.names[r.0] == r.1;
    }
  }

  // ---------------------------------------------------------------------
  // Order and content
  // ---------------------------------------------------------------------

  // A part under the role of its message.
  type Line = (string, Part)

  // What a history says, told block by block without regard to pairing: the lines
  // since the last compaction, and which calls are the server's.
  datatype Told = Told(lines: seq<Line>, server: set<string>)

  function Under(role: string, parts: seq<Part>): seq<Line> {
    seq(|parts|, i requires 0 <= i < |parts| => (role, parts[i]))
  }

  function GivenParts(parts: Outcome<seq<Part>>): seq<Part> {
    if parts.Ok? then parts.value else []
  }

  function TellBlock(t: Told, role: string, omit: bool, block: Block): Told {
    match block.kind
    case TextBlock(_, _) => t.(lines := t.lines + Under(role, GivenParts(TextParts(block.kind, omit))))
    case MediaBlock(_) => t.(lines := t.lines + Under(role, GivenParts(TextParts(block.kind, omit))))
    case ThinkingBlock(_, _) => t.(lines := t.lines + Under(role, GivenParts(ReasoningParts(block.kind, role))))
    case RedactedBlock(_) => t.(lines := t.lines + Under(role, GivenParts(ReasoningParts(block.kind, role))))
    case CompactionBlock(summary) => if summary.None? then t else Told([("user", TextPart(SummaryText(summary.value)))], {})
    case CallBlock(server, id, name, input) =>
      if input.None? then t
      else Told(t.lines + [(role, CallPart(Trim(id), Trim(name), input.value))],
          if server then t.server + {Trim(id)} else t.server)
    case ResultBlock(_, result) =>
      if result.Err? then t else t.(lines := t.lines + [("tool", ResultPart(Trim(block.toolUseId), "", result.value))])
    case _ => t
  }

  function TellBlocks(t: Told, role: string, omit: bool, blocks: seq<Block>): Told {
    if blocks == [] then t else TellBlock(TellBlocks(t, role, omit, blocks[..|blocks| - 1]), role, omit, blocks[|blocks| - 1])
  }

  function TellMessage(t: Told, m: Message, omit: bool): Told {
    if m.NotAMessage? then t
    else match m.content
      case PlainText(text) => if omit then t else t.(lines := t.lines + [(Trim(m.role), TextPart(text))])
      case Blocks(blocks) => TellBlocks(t, Trim(m.role), omit, blocks)
      case BadContent => t
  }

  function Tell(messages: seq<Message>, omitLastText: bool, n: nat): Told
    requires n <= |messages|
  {
    if n == 0 then Told([], {}) else TellMessage(Tell(messages, omitLastText, n - 1), messages[n - 1], omitLastText && n == |messages|)
  }

  function Nameless(p: Part): Part {
    if p.ResultPart? then ResultPart(p.id, "", p.answer) else p
  }

  // The lines of native messages, without placeholders; the tool name that a
  // result repeats is left out.
  function LinesOf(role: string, parts: seq<Part>): seq<Line> {
    if parts == [] then []
    else
      var p := parts[|parts| - 1];
      LinesOf(role, parts[..|parts| - 1])
      + if p.Placeholder? then [] else [(role, Nameless(p))]
  }

  function Lines(out: seq<Native>): seq<Line> {
    if out == [] then [] else Lines(out[..|out| - 1]) + LinesOf(out[|out| - 1].role, out[|out| - 1].parts)
  }

  predicate Tells(st: State, role: string, t: Told) {
    Lines(st.out) + LinesOf(role, st.parts) == t.lines && st.server == t.server
  }

  lemma LinesOfLast(out: seq<Native>, m: Native)
    ensures Lines(out + [m]) == Lines(out) + LinesOf(m.role, m.parts)
  {
    assert (out + [m])[..|out|] == out;
  }

  lemma {:induction false} MoreLines(role: string, a: seq<Part>, b: seq<Part>)
    ensures LinesOf(role, a + b) == LinesOf(role, a) + LinesOf(role, b)
  {
    if b == [] {
      assert a + b == a;
    } else {
      MoreLines(role, a, b[..|b| - 1]);
      assert (a + b)[..|a + b| - 1] == a + b[..|b| - 1];
    }
  }

  lemma {:induction false} PlainLines(role: string, parts: seq<Part>)
    requires forall p :: p in parts ==> !p.ResultPart? && !p.Placeholder?
    ensures LinesOf(role, parts) == Under(role, parts)
  {
    if parts != [] {
      PlainLines(role, parts[..|parts| - 1]);
    }
  }

  lemma OneLine(role: string, p: Part)
    ensures LinesOf(role, [p]) == if p.Placeholder? then [] else [(role, Nameless(p))]
    ensures LinesOf(role, []) == []
  {
    assert [p][..0] == [];
  }

  lemma AppendTells(st: State, role: string, t: Told)
    requires Tells(st, role, t)
    ensures Tells(st.(out := AppendMessage(st.out, role, st.parts, ""), parts := []), role, t)
  {
    LinesOfLast(st.out, Native(role, st.parts, ""));
    OneLine(role, TextPart(""));
    assert Lines(st.out) + [] == Lines(st.out);
    assert Lines(st.out) + LinesOf(role, st.parts) + [] == Lines(st.out) + LinesOf(role, st.parts);
  }

  lemma PartsTell(st: State, role: string, t: Told, more: seq<Part>)
    requires Tells(st, role, t) && forall p :: p in more ==> !p.ResultPart? && !p.Placeholder?
    ensures Tells(st.(parts := st.parts + more), role, t.(lines := t.lines + Under(role, more)))
  {
    MoreLines(role, st.parts, more);
    PlainLines(role, more);
    assert Lines(st.out) + (LinesOf(role, st.parts) + Under(role, more)) == t.lines + Under(role, more);
  }

  lemma {:induction false} FlushTells(st: State, ids: seq<string>, answeredNow: set<string>, role: string, t: Told)
    requires Tells(st, role, t)
    ensures Tells(Flush(st, ids, answeredNow), role, t) && Flush(st, ids, answeredNow).parts == st.parts
  {
    if ids != [] {
      var (n, id) := (|ids| - 1, ids[|ids| - 1]);
      FlushTells(st, ids[..n], answeredNow, role, t);
      var u := Flush(st, ids[..n], answeredNow);
      if Unanswered(u, id, answeredNow) {
        LinesOfLast(u.out, Native("tool", [Placeholder(id, u.names[id])], id));
        OneLine("tool", Placeholder(id, u.names[id]));
        assert Lines(u.out) + [] == Lines(u.out);
      }
    }
  }

  lemma AddResultTells(st: State, role: string, block: Block, t: Told)
    requires Tells(st, role, t) && block.kind.ResultBlock? && AddResult(st, role, block).Ok?
    ensures Tells(AddResult(st, role, block).value, role,
        t.(lines := t.lines + [("tool", ResultPart(Trim(block.toolUseId), "", block.kind.result.value))]))
  {
    hide Trim;
    AppendTells(st, role, t);
    var id := Trim(block.toolUseId);
    var p := ResultPart(id, st.names[id], block.kind.result.value);
    var before := AppendMessage(st.out, role, st.parts, "");
    LinesOfLast(before, Native("tool", [p], id));
    OneLine("tool", p);
    OneLine(role, p);
    assert Lines(before) + [] == Lines(before);
    assert t.lines + [("tool", Nameless(p))] + [] == t.lines + [("tool", Nameless(p))];
  }

  lemma AddCallTells(st: State, role: string, kind: Kind, t: Told)
    requires Tells(st, role, t) && kind.CallBlock? && AddCall(st, role, kind).Ok?
    ensures Tells(AddCall(st, role, kind).value, role, TellBlock(t, role, false, Block(kind, "")))
  {
    hide Trim;
    var p := CallPart(Trim(kind.id), Trim(kind.name), kind.input.value);
    PartsTell(st, role, t, [p]);
    assert Under(role, [p]) == [(role, p)];
  }

  lemma AddBlockTells(st: State, role: string, omit: bool, block: Block, t: Told)
    requires Tells(st, role, t) && AddBlock(st, role, omit, block).Ok?
    ensures Tells(AddBlock(st, role, omit, block).value, role, TellBlock(t, role, omit, block))
  {
    hide Trim, Tells, AddCall, AddResult, SummaryText, Under;
    match block.kind {
      case TextBlock(_, _) => PartsTell(st, role, t, TextParts(block.kind, omit).value);
      case MediaBlock(_) => PartsTell(st, role, t, TextParts(block.kind, omit).value);
      case ThinkingBlock(_, _) => PartsTell(st, role, t, ReasoningParts(block.kind, role).value);
      case RedactedBlock(_) => PartsTell(st, role, t, ReasoningParts(block.kind, role).value);
      case CallBlock(_, _, _, _) =>
        AddCallTells(st, role, block.kind, t);
        CallIsTold(t, role, omit, block);
      case ResultBlock(_, _) =>
        AddResultTells(st, role, block, t);
        ResultIsGiven(st, role, block);
      case CompactionBlock(summary) => SummaryTells(role, SummaryText(summary.value));
      case _ =>
    }
  }

  lemma CallIsTold(t: Told, role: string, omit: bool, block: Block)
    requires block.kind.CallBlock?
    ensures TellBlock(t, role, omit, block) == TellBlock(t, role, false, Block(block.kind, ""))
  {
    hide Trim;
  }

  lemma ResultIsGiven(st: State, role: string, block: Block)
    requires block.kind.ResultBlock? && AddResult(st, role, block).Ok?
    ensures block.kind.result.Ok?
  {
    hide Trim;
  }

  lemma SummaryTells(role: string, text: string)
    ensures Tells(EMPTY.(out := [Native("user", [TextPart(text)], "")]), role, Told([("user", TextPart(text))], {}))
  {
    LinesOfLast([], Native("user", [TextPart(text)], ""));
    OneLine("user", TextPart(text));
    OneLine(role, TextPart(text));
    assert [] + [Native("user", [TextPart(text)], "")] == [Native("user", [TextPart(text)], "")];
  }

  lemma {:induction false} AddBlocksTell(st: State, role: string, omit: bool, blocks: seq<Block>, t: Told)
    requires Tells(st, role, t) && AddBlocks(st, role, omit, blocks).Ok?
    ensures Tells(AddBlocks(st, role, omit, blocks).value, role, TellBlocks(t, role, omit, blocks))
  {
    hide Tells, AddBlock, TellBlock;
    if blocks != [] {
      AddBlocksTell(st, role, omit, blocks[..|blocks| - 1], t);
      AddBlockTells(AddBlocks(st, role, omit, blocks[..|blocks| - 1]).value, role, omit, blocks[|blocks| - 1],
                    TellBlocks(t, role, omit, blocks[..|blocks| - 1]));
    }
  }

  // Between messages no role matters.
  lemma NoPartsTell(st: State, role: string, other: string, t: Told)
    requires Tells(st, role, t) && st.parts == []
    ensures Tells(st, other, t)
  {
    OneLine(role, TextPart(""));
    OneLine(other, TextPart(""));
  }

  lemma AddMessageTells(st: State, m: Message, omit: bool, t: Told)
    requires Tells(st, "", t) && st.parts == [] && AddMessage(st, m, omit).Ok?
    ensures Tells(AddMessage(st, m, omit).value, "", TellMessage(t, m, omit)) && AddMessage(st, m, omit).value.parts == []
  {
    hide Tells, Trim, AddBlocks, Flush, AnsweredIds, SortedSet, TellBlocks;
    var role := Trim(m.role);
    NoPartsTell(st, "", role, t);
    FlushTells(st, SortedSet(st.calls), AnsweredIds(m.content), role, t);
    var flushed := if role == "user" then FlushAll(st, AnsweredIds(m.content)) else st;
    match m.content {
      case PlainText(text) =>
        if !omit {
          PartsTell(flushed, role, t, [TextPart(text)]);
          assert [] + [TextPart(text)] == [TextPart(text)];
          assert Under(role, [TextPart(text)]) == [(role, TextPart(text))];
          AppendTells(flushed.(parts := [TextPart(text)]), role, t.(lines := t.lines + [(role, TextPart(text))]));
          assert flushed.parts == [];
        }
        NoPartsTell(AddMessage(st, m, omit).value, role, "", TellMessage(t, m, omit));
      case Blocks(blocks) =>
        AddBlocksTell(flushed, role, omit, blocks, t);
        AppendTells(AddBlocks(flushed, role, omit, blocks).value, role, TellBlocks(t, role, omit, blocks));
        NoPartsTell(AddMessage(st, m, omit).value, role, "", TellMessage(t, m, omit));
    }
  }

  lemma {:induction false} AddMessagesTell(messages: seq<Message>, omitLastText: bool, n: nat)
    requires n <= |messages| && AddMessages(messages, omitLastText, n).Ok?
    ensures var st := AddMessages(messages, omitLastText, n).value; Tells(st, "", Tell(messages, omitLastText, n)) && st.parts == []
  {
    hide AddMessage, TellMessage;
    if n > 0 {
      AddMessagesTell(messages, omitLastText, n - 1);
      hide Tells;
      AddMessageTells(AddMessages(messages, omitLastText, n - 1).value, messages[n - 1], omitLastText && n == |messages|,
                      Tell(messages, omitLastText, n - 1));
    }
  }

  // A rebuilt history says, in order and under the same roles, what the blocks
  // after the last compaction say, its summary first; it adds only placeholders,
  // and none for a call of the server.
  lemma HistoryIsConserved(messages: seq<Message>, omitLastText: bool)
    requires Structured(messages, omitLastText).Ok?
    ensures var told := Tell(messages, omitLastText, |messages|);
            var out := Structured(messages, omitLastText).value;
            Lines(out) == told.lines && Placeholders(out) !! told.server
  {
    hide AddMessages, Flush, SortedSet, Tell, CallsInv, ResultsInv, LinesOf;
    AddMessagesKeepInv(messages, omitLastText, |messages|);
    AddMessagesTell(messages, omitLastText, |messages|);
    var st := AddMessages(messages, omitLastText, |messages|).value;
    FlushKeepsInv(st, SortedSet(st.calls), {});
    FlushTells(st, SortedSet(st.calls), {}, "", Tell(messages, omitLastText, |messages|));
    OneLine("", TextPart(""));
    assert Lines(FlushAll(st, {}).out) + [] == Lines(FlushAll(st, {}).out);
  }

  // ---------------------------------------------------------------------
  // The loops
  // ---------------------------------------------------------------------

  // structuredHistory: the state lives in variables that the nested loops update
  // and a compaction resets.
  class HistoryBuilder {
    var out: seq<Native>
    var parts: seq<Part>
    var calls: seq<string>
    var names: map<string, string>
    var serverCalls: set<string>
    var resolved: set<string>

    function View(): State
      reads this
    {
      State(out, parts, calls, names, serverCalls, resolved)
    }

    constructor ()
      ensures View() == EMPTY
    {
      out, parts, calls, names, serverCalls, resolved := [], [], [], map[], {}, {};
    }

    method Append(role: string, more: seq<Part>, id: string)
      modifies this`out
      ensures out == AppendMessage(old(out), role, more, id)
    {
      if |more| > 0 {
        out := out + [Native(role, more, id)];
      }
    }

    method FlushUnansweredCallerCalls(answeredNow: set<string>)
      modifies this`out, this`resolved
      ensures View() == FlushAll(old(View()), answeredNow)
    {
      hide SortedSet;
      var ids := SortedSet(calls);
      for k := 0 to |ids|
        invariant View() == Flush(old(View()), ids[..k], answeredNow)
      {
        assert ids[..k + 1][..k] == ids[..k];
        var id := ids[k];
        if id in names && id !in resolved && id !in serverCalls && id !in answeredNow {
          Append("tool", [Placeholder(id, names[id])], id);
          resolved := resolved + {id};
        }
      }
      assert ids[..|ids|] == ids;
    }

    method TakeResult(role: string, block: Block) returns (err: Option<HistoryError>)
      requires block.kind.ResultBlock?
      modifies this
      ensures AddResult(old(View()), role, block) == if err.None? then Ok(View()) else Err(err.value)
    {
      hide Trim;
      var id := Trim(block.toolUseId);
      if id == "" || id !in names || id in resolved {
        return Some(InvalidHistory);
      }
      if !block.kind.server && id in serverCalls {
        return Some(InvalidHistory);
      }
      if block.kind.server && id !in serverCalls {
        return Some(InvalidHistory);
      }
      if block.kind.result.Err? {
        return Some(block.kind.result.error);
      }
      Append(role, parts, "");
      parts := [];
      Append("tool", [ResultPart(id, names[id], block.kind.result.value)], id);
      resolved := resolved + {id};
      return None;
    }

    method TakeCall(role: string, kind: Kind) returns (err: Option<HistoryError>)
      requires kind.CallBlock?
      modifies this
      ensures AddCall(old(View()), role, kind) == if err.None? then Ok(View()) else Err(err.value)
    {
      hide Trim;
      var id, name := Trim(kind.id), Trim(kind.name);
      if role != "assistant" || id == "" || name == "" || id in names || kind.input.None? {
        return Some(InvalidHistory);
      }
      names, calls := names[id := name], calls + [id];
      if kind.server {
        serverCalls := serverCalls + {id};
      }
      parts := parts + [CallPart(id, name, kind.input.value)];
      return None;
    }

    method TakeBlock(role: string, omit: bool, block: Block) returns (err: Option<HistoryError>)
      modifies this
      ensures AddBlock(old(View()), role, omit, block) == if err.None? then Ok(View()) else Err(err.value)
    {
      hide Trim, AddCall, AddResult, SummaryText;
      match block.kind {
        case CallBlock(_, _, _, _) => err := TakeCall(role, block.kind);
        case ResultBlock(_, _) => err := TakeResult(role, block);
        case CompactionBlock(summary) =>
          if role != "assistant" || summary.None? || Trim(summary.value) == "" {
            return Some(InvalidHistory);
          }
          out, parts, calls, names, serverCalls, resolved := [], [], [], map[], {}, {};
          var text := TextPart(SummaryText(summary.value));
          Append("user", [text], "");
          assert [] + [Native("user", [text], "")] == [Native("user", [text], "")];
          return None;
        case ThinkingBlock(_, _) => err := TakeParts(ReasoningParts(block.kind, role));
        case RedactedBlock(_) => err := TakeParts(ReasoningParts(block.kind, role));
        case TextBlock(_, _) => err := TakeParts(TextParts(block.kind, omit));
        case MediaBlock(_) => err := TakeParts(TextParts(block.kind, omit));
        case _ => return Some(InvalidHistory);
      }
    }

    method TakeParts(more: Outcome<seq<Part>>) returns (err: Option<HistoryError>)
      modifies this`parts
      ensures AddParts(old(View()), more) == if err.None? then Ok(View()) else Err(err.value)
    {
      if more.Err? {
        return Some(more.error);
      }
      parts := parts + more.value;
      return None;
    }

    method TakeMessage(m: Message, omit: bool) returns (err: Option<HistoryError>)
      requires parts == []
      modifies this
      ensures AddMessage(old(View()), m, omit) == if err.None? then Ok(View()) else Err(err.value)
      ensures err.None? ==> parts == []
    {
      hide Trim, AddBlock, FlushAll, AnsweredIds;
      if m.NotAMessage? {
        return Some(InvalidHistory);
      }
      var role := Trim(m.role);
      if role == "user" {
        FlushUnansweredCallerCalls(AnsweredIds(m.content));
      }
      match m.content {
        case PlainText(text) =>
          if !omit {
            Append(role, [TextPart(text)], "");
          }
          return None;
        case BadContent => return Some(InvalidHistory);
        case Blocks(blocks) =>
          ghost var start := View();
          for k := 0 to |blocks|
            invariant AddBlocks(start, role, omit, blocks[..k]) == Ok(View())
          {
            assert blocks[..k + 1][..k] == blocks[..k];
            err := TakeBlock(role, omit, blocks[k]);
            if err.Some? {
              BlocksStop(start, role, omit, blocks, k + 1);
              return;
            }
          }
          assert blocks[..|blocks|] == blocks;
          Append(role, parts, "");
          parts := [];
          return None;
      }
    }
  }

  lemma {:induction false} BlocksStop(st: State, role: string, omit: bool, blocks: seq<Block>, k: nat)
    requires k <= |blocks| && AddBlocks(st, role, omit, blocks[..k]).Err?
    ensures AddBlocks(st, role, omit, blocks) == AddBlocks(st, role, omit, blocks[..k])
  {
    hide AddBlock;
    if k == |blocks| {
      assert blocks[..k] == blocks;
    } else {
      assert blocks[..|blocks| - 1][..k] == blocks[..k];
      BlocksStop(st, role, omit, blocks[..|blocks| - 1], k);
    }
  }

  method StructuredHistory(messages: seq<Message>, omitLastText: bool) returns (history: Outcome<seq<Native>>)
    ensures history == Structured(messages, omitLastText)
    ensures history.Ok? ==> Paired(history.value)
  {
    hide AddMessage, FlushAll, Paired;
    var b := new HistoryBuilder();
    for n := 0 to |messages|
      invariant AddMessages(messages, omitLastText, n) == Ok(b.View()) && b.parts == []
    {
      var err := b.TakeMessage(messages[n], omitLastText && n + 1 == |messages|);
      if err.Some? {
        MessagesStop(messages, omitLastText, n + 1, |messages|);
        return Err(err.value);
      }
    }
    if exists id :: id in b.serverCalls && id !in b.resolved {
      return Err(Conflict);
    }
    b.FlushUnansweredCallerCalls({});
    HistoryIsPaired(messages, omitLastText);
    return Ok(b.out);
  }

  lemma {:induction false} MessagesStop(messages: seq<Message>, omitLastText: bool, k: nat, n: nat)
    requires k <= n <= |messages| && AddMessages(messages, omitLastText, k).Err?
    ensures AddMessages(messages, omitLastText, n) == AddMessages(messages, omitLastText, k)
  {
    hide AddMessage;
    if k < n {
      MessagesStop(messages, omitLastText, k, n - 1);
    }
  }
}
