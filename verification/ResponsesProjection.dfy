// project_responses.go: the Responses event stream and the envelope that the
// stream and the non-stream answer share.
module ResponsesProjections {
  import opened Events
  import opened Usages
  import opened Strings
  import J = Json
  import C = ClaudeProjections

  // ---------------------------------------------------------------------
  // Output items and stream payloads
  // ---------------------------------------------------------------------

  datatype Annotation = UrlCitation(url: string, title: string)

  datatype Action = OpenPage(url: string) | SearchFor(query: string, sources: seq<string>)

  datatype OutputItem =
    | ReasoningItem(id: string, text: string)
    | MessageItem(id: string, text: string, annotations: seq<Annotation>)
    | SearchItem(id: string, action: Action)
    | FunctionItem(id: string, callId: string, name: string, arguments: string)

  datatype Kind = ReasoningKind | MessageKind | SearchKind | FunctionKind

  function KindOf(item: OutputItem): Kind {
    match item
    case ReasoningItem(_, _) => ReasoningKind
    case MessageItem(_, _, _) => MessageKind
    case SearchItem(_, _) => SearchKind
    case FunctionItem(_, _, _, _) => FunctionKind
  }

  function Content(item: OutputItem): string {
    match item
    case ReasoningItem(_, text) => text
    case MessageItem(_, text, _) => text
    case SearchItem(_, _) => ""
    case FunctionItem(_, _, _, arguments) => arguments
  }

  datatype Phase = Progressing | Searching | Completed

  // One stream event; the kind of a part, delta or done event names its type.
  datatype Payload =
    | ResponseCreated
    | ResponseInProgress
    | ItemAdded(index: nat, opening: OutputItem)
    | PartAdded(kind: Kind, id: string, index: nat)
    | Delta(kind: Kind, id: string, index: nat, text: string)
    | TextDone(kind: Kind, id: string, index: nat, text: string)
    | PartDone(kind: Kind, id: string, index: nat, text: string, annotations: seq<Annotation>)
    | SearchProgress(id: string, index: nat, phase: Phase)
    | ItemDone(index: nat, item: OutputItem)
    | ResponseCompleted(output: seq<OutputItem>, facts: Facts)

  // ---------------------------------------------------------------------
  // The projection state
  // ---------------------------------------------------------------------

  datatype Projection = Projection(
    response: string,
    semantic: bool,
    toolCalls: seq<ToolCall>,
    started: bool,
    out: nat,
    span: nat,
    reasoningOpen: bool,
    reasoningIndex: nat,
    reasoningId: string,
    reasoning: string,
    messageOpen: bool,
    messageIndex: nat,
    messageId: string,
    text: string,
    byIndex: map<nat, OutputItem>,
    searchIndex: map<string, nat>,
    citations: seq<C.Citation>,
    facts: Facts)

  function NewProjection(response: string, measured: bool): Projection {
    Projection(response, false, [], false, 0, 0, false, 0, "", "", false, 0, "", "", map[], map[], [], NewFacts(measured))
  }

  datatype Out = Out(state: Projection, payloads: seq<Payload>) {
    function Then(next: Out): Out {
      Out(next.state, payloads + next.payloads)
    }
  }

  function Start(p: Projection): Out {
    if p.started then Out(p, []) else Out(p.(started := true), [ResponseCreated, ResponseInProgress])
  }

  function ItemId(prefix: string, response: string, span: nat): string {
    prefix + response + "_" + J.Digits(span)
  }

  function EnsureReasoning(p: Projection): Out {
    if p.reasoningOpen then Out(p, [])
    else
      var (i, id) := (p.out, ItemId("rs_", p.response, p.span + 1));
      Out(p.(reasoningOpen := true, reasoningIndex := i, out := i + 1, span := p.span + 1, reasoningId := id),
          [ItemAdded(i, ReasoningItem(id, "")), PartAdded(ReasoningKind, id, i)])
  }

  function CloseReasoning(p: Projection): Out {
    if !p.reasoningOpen then Out(p, [])
    else
      var (i, id, item) := (p.reasoningIndex, p.reasoningId, ReasoningItem(p.reasoningId, p.reasoning));
      Out(p.(reasoningOpen := false, reasoning := "", byIndex := p.byIndex[i := item]),
          [TextDone(ReasoningKind, id, i, p.reasoning), PartDone(ReasoningKind, id, i, p.reasoning, []), ItemDone(i, item)])
  }

  function EnsureMessage(p: Projection): Out {
    if p.messageOpen then Out(p, [])
    else
      var (i, id) := (p.out, ItemId("msg_", p.response, p.span + 1));
      Out(p.(messageOpen := true, messageIndex := i, out := i + 1, span := p.span + 1, messageId := id),
          [ItemAdded(i, MessageItem(id, "", [])), PartAdded(MessageKind, id, i)])
  }

  // Citations whose trimmed link is a usable source.
  function Annotations(lib: C.Libraries, citations: seq<C.Citation>): seq<Annotation> {
    if citations == [] then []
    else
      var last := citations[|citations| - 1];
      Annotations(lib, citations[..|citations| - 1])
      + if lib.usable(Trim(last.url)) then [UrlCitation(Trim(last.url), Trim(last.title))] else []
  }

  function CloseMessage(lib: C.Libraries, p: Projection): Out {
    if !p.messageOpen then Out(p, [])
    else
      var annotations := Annotations(lib, p.citations);
      var (i, id, item) := (p.messageIndex, p.messageId, MessageItem(p.messageId, p.text, annotations));
      Out(p.(messageOpen := false, text := "", byIndex := p.byIndex[i := item]),
          [TextDone(MessageKind, id, i, p.text), PartDone(MessageKind, id, i, p.text, annotations), ItemDone(i, item)])
  }

  // Start, then close whatever is open.
  function Settle(lib: C.Libraries, p: Projection): Out {
    var a := Start(p);
    var b := CloseReasoning(a.state);
    a.Then(b).Then(CloseMessage(lib, b.state))
  }

  function EmitText(p: Projection, text: string): Out {
    var a := Start(p.(semantic := true));
    var b := CloseReasoning(a.state);
    var c := EnsureMessage(b.state);
    var q := c.state;
    a.Then(b).Then(c).Then(Out(q.(text := q.text + text), [Delta(MessageKind, q.messageId, q.messageIndex, text)]))
  }

  function EmitThinking(lib: C.Libraries, p: Projection, text: string): Out {
    var a := Start(p.(semantic := true));
    var b := CloseMessage(lib, a.state);
    var c := EnsureReasoning(b.state);
    var q := c.state;
    a.Then(b).Then(c).Then(Out(q.(reasoning := q.reasoning + text),
        [Delta(ReasoningKind, q.reasoningId, q.reasoningIndex, text)]))
  }

  function SearchId(s: HostedSearch): string {
    "ws_" + C.SearchToolId(s)
  }

  function SearchAction(lib: C.Libraries, s: HostedSearch): Action {
    if C.IsFetch(s) then OpenPage(C.FetchUrl(s))
    else
      var usable := C.UsableReferences(lib, C.References(s));
      SearchFor(s.query, seq(|usable|, i requires 0 <= i < |usable| => usable[i].url))
  }

  function AddSearch(p: Projection, id: string, action: Action): Out {
    var i := p.out;
    Out(p.(out := i + 1, searchIndex := p.searchIndex[id := i]),
        [ItemAdded(i, SearchItem(id, action)), SearchProgress(id, i, Progressing), SearchProgress(id, i, Searching)])
  }

  function SearchStarted(lib: C.Libraries, p: Projection, s: HostedSearch): (o: Out)
    ensures SearchId(s) in o.state.searchIndex
  {
    var id := SearchId(s);
    if id in p.searchIndex then Out(p, [])
    else
      var a := Settle(lib, p);
      a.Then(AddSearch(a.state, id, SearchAction(lib, s)))
  }

  function FinishSearch(p: Projection, i: nat, item: OutputItem): Out {
    Out(p.(byIndex := p.byIndex[i := item]), [SearchProgress(item.id, i, Completed), ItemDone(i, item)])
  }

  function SearchCompleted(lib: C.Libraries, p: Projection, s: HostedSearch): Out {
    var a := SearchStarted(lib, p, s);
    var item := SearchItem(SearchId(s), SearchAction(lib, s));
    var b := FinishSearch(a.state, a.state.searchIndex[item.id], item);
    a.Then(Out(b.state.(citations := b.state.citations + C.SearchCitations(lib, s)), b.payloads))
  }

  function FunctionCall(p: Projection, call: ToolCall): Out {
    var arguments := if call.arguments == "" then "{}" else call.arguments;
    var (i, id) := (p.out, "fc_" + call.toolCallId);
    var item := FunctionItem(id, call.toolCallId, call.name, arguments);
    Out(p.(out := i + 1, byIndex := p.byIndex[i := item]),
        [ItemAdded(i, item.(arguments := "")), Delta(FunctionKind, id, i, arguments), TextDone(FunctionKind, id, i, arguments),
         ItemDone(i, item)])
  }

  function FunctionCalls(p: Projection, calls: seq<ToolCall>): Out {
    if calls == [] then Out(p, [])
    else
      var before := FunctionCalls(p, calls[..|calls| - 1]);
      before.Then(FunctionCall(before.state, calls[|calls| - 1]))
  }

  // responsesOutputJSON: the stored items by output index.
  function OutputList(byIndex: map<nat, OutputItem>, n: nat): seq<OutputItem> {
    if n == 0 then [] else OutputList(byIndex, n - 1) + if n - 1 in byIndex then [byIndex[n - 1]] else []
  }

  datatype Envelope = Envelope(output: seq<OutputItem>, facts: Facts)

  // responsesNonStream, and the response of the last stream event.
  function NonStream(p: Projection): Envelope {
    Envelope(OutputList(p.byIndex, p.out), p.facts)
  }

  function Finish(p: Projection): seq<Payload> {
    [ResponseCompleted(NonStream(p).output, NonStream(p).facts)]
  }

  datatype Outcome = Outcome(state: Projection, payloads: seq<Payload>, status: C.Status)

  function FinishAfter(o: Out, park: bool): Outcome {
    Outcome(o.state, o.payloads + Finish(o.state), C.Finished(park))
  }

  function Continue(o: Out): Outcome {
    Outcome(o.state, o.payloads, C.Running)
  }

  function Handle(lib: C.Libraries, p0: Projection, e: Event): Outcome {
    var p := p0.(facts := Observe(p0.facts, e));
    match e.kind
    case HostedSearchStarted =>
      var q := p.(semantic := true);
      Continue(if e.search.None? then Out(q, []) else SearchStarted(lib, q, e.search.value))
    case HostedSearchCompleted =>
      var q := p.(semantic := true);
      Continue(if e.search.None? then Out(q, []) else SearchCompleted(lib, q, e.search.value))
    case ToolCallEvent =>
      Continue(Out(if e.toolCall.None? then p else p.(semantic := true, toolCalls := p.toolCalls + [e.toolCall.value]), []))
    case Text => Continue(EmitText(p, e.text))
    case Thinking => Continue(if e.text == "" then Out(p, []) else EmitThinking(lib, p, e.text))
    case ThinkingCompleted => Continue(CloseReasoning(p))
    case TurnEnded =>
      if p.toolCalls == [] then Outcome(p, [], C.Failed)
      else
        var a := Settle(lib, p);
        FinishAfter(a.Then(FunctionCalls(a.state, p.toolCalls)), true)
    case Done => FinishAfter(Settle(lib, p), false)
    case _ => Continue(Out(p, []))
  }

  datatype Session = Session(p: Projection, stream: seq<Payload>, status: C.Status)

  function Next(lib: C.Libraries, s: Session, e: Event): Session {
    if s.status != C.Running then s
    else
      var o := Handle(lib, s.p, e);
      Session(o.state, s.stream + o.payloads, o.status)
  }

  function Run(lib: C.Libraries, s: Session, events: seq<Event>): Session {
    if events == [] then s else Next(lib, Run(lib, s, events[..|events| - 1]), events[|events| - 1])
  }

  function NewSession(response: string, measured: bool): Session {
    Session(NewProjection(response, measured), [], C.Running)
  }

  // ---------------------------------------------------------------------
  // A client of the stream
  // ---------------------------------------------------------------------

  // An item as the client sees it: how it was announced, the deltas received so
  // far, and the last completed form.
  datatype Item = Item(opening: OutputItem, text: string, done: Option<OutputItem>)

  // `active` is the one text, reasoning or function item that may grow.
  datatype Reader = Reader(
    created: bool,
    started: bool,
    items: seq<Item>,
    active: Option<nat>,
    searches: map<string, nat>,
    completed: set<string>,
    answer: Option<Envelope>)

  const NEW_READER := Reader(false, false, [], None, map[], {}, None)

  // The completed items in index order.
  function DoneItems(items: seq<Item>): seq<OutputItem> {
    if items == [] then []
    else
      var last := items[|items| - 1];
      DoneItems(items[..|items| - 1]) + if last.done.Some? then [last.done.value] else []
  }

  predicate Growing(r: Reader, kind: Kind, id: string, i: nat) {
    r.active == Some(i) && i < |r.items| && KindOf(r.items[i].opening) == kind && r.items[i].opening.id == id
  }

  // Whether an item may complete as `item`: what was announced, with exactly the
  // text that was streamed.
  predicate Completes(it: Item, item: OutputItem) {
    && KindOf(item) == KindOf(it.opening) && item.id == it.opening.id && Content(item) == it.text
    && (item.FunctionItem? ==> item.callId == it.opening.callId && item.name == it.opening.name)
  }

  // One payload, or None when the protocol does not allow it here.
  function Accept(r: Reader, c: Payload): Option<Reader> {
    if r.answer.Some? then None
    else match c
      case ResponseCreated => if r.created then None else Some(r.(created := true))
      case ResponseInProgress => if !r.created || r.started then None else Some(r.(started := true))
      case ItemAdded(i, opening) =>
        if !r.started || i != |r.items| || r.active.Some? || Content(opening) != "" then None
        else if opening.SearchItem? then
          if opening.id in r.searches then None
          else Some(r.(items := r.items + [Item(opening, "", None)], searches := r.searches[opening.id := i]))
        else Some(r.(items := r.items + [Item(opening, "", None)], active := Some(i)))
      case PartAdded(kind, id, i) => if Growing(r, kind, id, i) && r.items[i].text == "" then Some(r) else None
      case Delta(kind, id, i, text) =>
        if !Growing(r, kind, id, i) then None
        else Some(r.(items := r.items[i := r.items[i].(text := r.items[i].text + text)]))
      case TextDone(kind, id, i, text) => if Growing(r, kind, id, i) && r.items[i].text == text then Some(r) else None
      case PartDone(kind, id, i, text, _) => if Growing(r, kind, id, i) && r.items[i].text == text then Some(r) else None
      case SearchProgress(id, i, phase) =>
        if id !in r.searches || r.searches[id] != i then None
        else Some(if phase == Completed then r.(completed := r.completed + {id}) else r)
      case ItemDone(i, item) =>
        if i >= |r.items| || !Completes(r.items[i], item) || (!item.SearchItem? && r.active != Some(i)) then None
        else Some(r.(items := r.items[i := r.items[i].(done := Some(item))],
            active := if item.SearchItem? then r.active else None))
      case ResponseCompleted(output, facts) =>
        if !r.started || r.active.Some? || output != DoneItems(r.items) then None
        else Some(r.(answer := Some(Envelope(output, facts))))
  }

  function Read(r: Option<Reader>, payloads: seq<Payload>): Option<Reader> {
    if payloads == [] then r
    else
      var before := Read(r, payloads[..|payloads| - 1]);
      if before.None? then None else Accept(before.value, payloads[|payloads| - 1])
  }

  lemma {:induction false} ReadConcatenation(r: Option<Reader>, a: seq<Payload>, b: seq<Payload>)
    ensures Read(r, a + b) == Read(Read(r, a), b)
  {
    hide Accept;
    if b == [] {
      assert a + b == a;
    } else {
      assert (a + b)[..|a + b| - 1] == a + b[..|b| - 1];
      ReadConcatenation(r, a, b[..|b| - 1]);
    }
  }

  // ---------------------------------------------------------------------
  // The projection and its client in step
  // ---------------------------------------------------------------------

  function Get(m: map<nat, OutputItem>, i: nat): Option<OutputItem> {
    if i in m then Some(m[i]) else None
  }

  function Active(p: Projection): Option<nat> {
    if p.messageOpen then Some(p.messageIndex) else if p.reasoningOpen then Some(p.reasoningIndex) else None
  }

  // Every index holds its completed item, except an open one and a search that
  // has not completed.
  predicate ItemsInStep(p: Projection, r: Reader) {
    && |r.items| == p.out && (forall i :: i in p.byIndex ==> i < p.out)
    && forall i {:trigger r.items[i]} :: 0 <= i < |r.items| ==>
         && r.items[i].done == Get(p.byIndex, i)
         && (if r.items[i].opening.SearchItem? then r.items[i].text == "" else r.items[i].done.Some? || Active(p) == Some(i))
  }

  predicate SearchesInStep(p: Projection, r: Reader) {
    && r.searches == p.searchIndex
    && (forall id :: id in r.searches ==> Announces(r, id, r.searches[id]))
    && (forall i {:trigger r.items[i]} :: 0 <= i < |r.items| && r.items[i].opening.SearchItem? ==>
          r.items[i].opening.id in r.searches && r.searches[r.items[i].opening.id] == i)
  }

  predicate Announces(r: Reader, id: string, i: nat) {
    && i < |r.items| && r.items[i].opening.SearchItem? && r.items[i].opening.id == id
    && (r.items[i].done.Some? <==> id in r.completed)
  }

  predicate OpenInStep(p: Projection, r: Reader) {
    && r.active == Active(p) && !(p.messageOpen && p.reasoningOpen)
    && (if p.messageOpen then
          p.messageIndex < |r.items| && r.items[p.messageIndex] == Item(MessageItem(p.messageId, "", []), p.text, None)
        else p.text == "")
    && (if p.reasoningOpen then
          p.reasoningIndex < |r.items| && r.items[p.reasoningIndex] == Item(ReasoningItem(p.reasoningId, ""), p.reasoning, None)
        else p.reasoning == "")
  }

  predicate InStep(p: Projection, r: Reader) {
    && r.created == r.started == p.started && r.answer.None?
    && (p.messageOpen || p.reasoningOpen ==> p.started)
    && ItemsInStep(p, r) && SearchesInStep(p, r) && OpenInStep(p, r)
  }

  // After the payloads of `o` the client is in step again and has seen these
  // searches complete.
  predicate Follows(r: Reader, o: Out, completed: set<string>) {
    var r' := Read(Some(r), o.payloads);
    r'.Some? && InStep(o.state, r'.value) && r'.value.completed == completed
  }

  lemma Read1(r: Reader, a: Payload)
    ensures Read(Some(r), [a]) == Accept(r, a)
  {
    hide Accept;
    assert [a][..0] == [];
  }

  lemma Read2(r: Reader, a: Payload, b: Payload)
    requires Accept(r, a).Some?
    ensures Read(Some(r), [a, b]) == Accept(Accept(r, a).value, b)
  {
    hide Accept;
    assert [a, b][..1] == [a];
    Read1(r, a);
  }

  lemma Read3(r: Reader, a: Payload, b: Payload, c: Payload)
    requires Accept(r, a).Some? && Accept(Accept(r, a).value, b).Some?
    ensures Read(Some(r), [a, b, c]) == Accept(Accept(Accept(r, a).value, b).value, c)
  {
    hide Accept;
    assert [a, b, c][..2] == [a, b];
    Read2(r, a, b);
  }

  lemma ReadNothing(r: Reader)
    ensures Read(Some(r), []) == Some(r)
  {}

  lemma ThenFollows(r: Reader, a: Out, b: Out, seen: set<string>, completed: set<string>)
    requires Follows(r, a, seen) && Follows(Read(Some(r), a.payloads).value, b, completed)
    ensures Follows(r, a.Then(b), completed)
  {
    hide InStep, Read;
    ReadConcatenation(Some(r), a.payloads, b.payloads);
  }

  lemma QuietFollows(p: Projection, r: Reader)
    requires InStep(p, r)
    ensures Follows(r, Out(p, []), r.completed)
  {
    hide InStep;
    ReadNothing(r);
  }

  lemma StartFollows(p: Projection, r: Reader)
    requires InStep(p, r)
    ensures Follows(r, Start(p), r.completed) && Start(p).state == p.(started := true)
  {
    hide Read;
    if p.started {
      QuietFollows(p, r);
    } else {
      Read2(r, ResponseCreated, ResponseInProgress);
    }
  }

  lemma AddingKeepsSearches(p: Projection, r: Reader, it: Item)
    requires SearchesInStep(p, r) && !it.opening.SearchItem?
    ensures forall active :: SearchesInStep(p, r.(items := r.items + [it], active := active))
  {
    forall active
      ensures SearchesInStep(p, r.(items := r.items + [it], active := active))
    {
      forall id | id in r.searches
        ensures Announces(r.(items := r.items + [it], active := active), id, r.searches[id])
      {
        assert Announces(r, id, r.searches[id]);
      }
    }
  }

  lemma EnsureMessageFollows(p: Projection, r: Reader)
    requires InStep(p, r) && p.started && !p.reasoningOpen
    ensures Follows(r, EnsureMessage(p), r.completed)
    ensures EnsureMessage(p).state.messageOpen && !EnsureMessage(p).state.reasoningOpen
  {
    hide Read, ItemId;
    if p.messageOpen {
      QuietFollows(p, r);
    } else {
      var (i, id) := (p.out, ItemId("msg_", p.response, p.span + 1));
      Read2(r, ItemAdded(i, MessageItem(id, "", [])), PartAdded(MessageKind, id, i));
      AddingKeepsSearches(p, r, Item(MessageItem(id, "", []), "", None));
    }
  }

  lemma EnsureReasoningFollows(p: Projection, r: Reader)
    requires InStep(p, r) && p.started && !p.messageOpen
    ensures Follows(r, EnsureReasoning(p), r.completed)
    ensures EnsureReasoning(p).state.reasoningOpen && !EnsureReasoning(p).state.messageOpen
  {
    hide Read, ItemId;
    if p.reasoningOpen {
      QuietFollows(p, r);
    } else {
      var (i, id) := (p.out, ItemId("rs_", p.response, p.span + 1));
      Read2(r, ItemAdded(i, ReasoningItem(id, "")), PartAdded(ReasoningKind, id, i));
      AddingKeepsSearches(p, r, Item(ReasoningItem(id, ""), "", None));
    }
  }

  lemma CloseMessageFollows(lib: C.Libraries, p: Projection, r: Reader)
    requires InStep(p, r)
    ensures Follows(r, CloseMessage(lib, p), r.completed) && !CloseMessage(lib, p).state.messageOpen
  {
    hide Read, Annotations;
    if !p.messageOpen {
      QuietFollows(p, r);
    } else {
      var annotations := Annotations(lib, p.citations);
      var (i, id) := (p.messageIndex, p.messageId);
      Read3(r, TextDone(MessageKind, id, i, p.text), PartDone(MessageKind, id, i, p.text, annotations),
            ItemDone(i, MessageItem(id, p.text, annotations)));
    }
  }

  lemma CloseReasoningFollows(p: Projection, r: Reader)
    requires InStep(p, r)
    ensures Follows(r, CloseReasoning(p), r.completed) && !CloseReasoning(p).state.reasoningOpen
    ensures CloseReasoning(p).state.started == p.started && CloseReasoning(p).state.messageOpen == p.messageOpen
  {
    hide Read;
    if !p.reasoningOpen {
      QuietFollows(p, r);
    } else {
      var (i, id) := (p.reasoningIndex, p.reasoningId);
      Read3(r, TextDone(ReasoningKind, id, i, p.reasoning), PartDone(ReasoningKind, id, i, p.reasoning, []),
            ItemDone(i, ReasoningItem(id, p.reasoning)));
    }
  }

  lemma DeltaFollows(p: Projection, r: Reader, text: string)
    requires InStep(p, r)
    ensures p.messageOpen ==>
              Follows(r, Out(p.(text := p.text + text), [Delta(MessageKind, p.messageId, p.messageIndex, text)]), r.completed)
    ensures p.reasoningOpen ==>
              Follows(r, Out(p.(reasoning := p.reasoning + text),
                  [Delta(ReasoningKind, p.reasoningId, p.reasoningIndex, text)]), r.completed)
  {
    hide Read;
    if p.messageOpen {
      Read1(r, Delta(MessageKind, p.messageId, p.messageIndex, text));
    } else if p.reasoningOpen {
      Read1(r, Delta(ReasoningKind, p.reasoningId, p.reasoningIndex, text));
    }
  }

  lemma SettleFollows(lib: C.Libraries, p: Projection, r: Reader)
    requires InStep(p, r)
    ensures var o := Settle(lib, p); Follows(r, o, r.completed) && Settled(o.state) && o.state.searchIndex == p.searchIndex
  {
    hide InStep, Read, Annotations;
    var a := Start(p);
    StartFollows(p, r);
    var r1 := Read(Some(r), a.payloads).value;
    var b := CloseReasoning(a.state);
    CloseReasoningFollows(a.state, r1);
    ThenFollows(r, a, b, r.completed, r.completed);
    CloseMessageFollows(lib, b.state, Read(Some(r), a.Then(b).payloads).value);
    ThenFollows(r, a.Then(b), CloseMessage(lib, b.state), r.completed, r.completed);
  }

  predicate Settled(p: Projection) {
    p.started && !p.messageOpen && !p.reasoningOpen
  }

  lemma EmitTextFollows(p: Projection, r: Reader, text: string)
    requires InStep(p, r)
    ensures Follows(r, EmitText(p, text), r.completed)
  {
    hide InStep, Read, Start, CloseReasoning, EnsureMessage;
    var p0 := p.(semantic := true);
    UnseenFields(p, p0, r);
    var a := Start(p0);
    StartFollows(p0, r);
    var b := CloseReasoning(a.state);
    CloseReasoningFollows(a.state, Read(Some(r), a.payloads).value);
    ThenFollows(r, a, b, r.completed, r.completed);
    var c := EnsureMessage(b.state);
    EnsureMessageFollows(b.state, Read(Some(r), a.Then(b).payloads).value);
    ThenFollows(r, a.Then(b), c, r.completed, r.completed);
    var q := c.state;
    DeltaFollows(q, Read(Some(r), a.Then(b).Then(c).payloads).value, text);
    ThenFollows(r, a.Then(b).Then(c), Out(q.(text := q.text + text), [Delta(MessageKind, q.messageId, q.messageIndex, text)]),
                r.completed, r.completed);
  }

  lemma EmitThinkingFollows(lib: C.Libraries, p: Projection, r: Reader, text: string)
    requires InStep(p, r)
    ensures Follows(r, EmitThinking(lib, p, text), r.completed)
  {
    hide InStep, Read, Start, EnsureReasoning, Annotations;
    var p0 := p.(semantic := true);
    UnseenFields(p, p0, r);
    var a := Start(p0);
    StartFollows(p0, r);
    var b := CloseMessage(lib, a.state);
    CloseMessageFollows(lib, a.state, Read(Some(r), a.payloads).value);
    ThenFollows(r, a, b, r.completed, r.completed);
    var c := EnsureReasoning(b.state);
    EnsureReasoningFollows(b.state, Read(Some(r), a.Then(b).payloads).value);
    ThenFollows(r, a.Then(b), c, r.completed, r.completed);
    var q := c.state;
    DeltaFollows(q, Read(Some(r), a.Then(b).Then(c).payloads).value, text);
    ThenFollows(r, a.Then(b).Then(c), Out(q.(reasoning := q.reasoning + text),
        [Delta(ReasoningKind, q.reasoningId, q.reasoningIndex, text)]),
                r.completed, r.completed);
  }

  // Fields the client never sees may change freely.
  lemma UnseenFields(p: Projection, q: Projection, r: Reader)
    requires q == p.(semantic := q.semantic, toolCalls := q.toolCalls, citations := q.citations, facts := q.facts)
    ensures InStep(p, r) <==> InStep(q, r)
  {}

  lemma AddSearchFollows(p: Projection, r: Reader, id: string, action: Action)
    requires InStep(p, r) && Settled(p) && id !in p.searchIndex && id !in r.completed
    ensures Follows(r, AddSearch(p, id, action), r.completed)
  {
    hide Read;
    var i := p.out;
    Read3(r, ItemAdded(i, SearchItem(id, action)), SearchProgress(id, i, Progressing), SearchProgress(id, i, Searching));
    var r' := r.(items := r.items + [Item(SearchItem(id, action), "", None)], searches := r.searches[id := i]);
    var q := AddSearch(p, id, action).state;
    assert SearchesInStep(q, r') by {
      forall k | k in r'.searches
        ensures Announces(r', k, r'.searches[k])
      {
        assert k != id ==> Announces(r, k, r.searches[k]);
      }
    }
  }

  lemma FinishSearchFollows(p: Projection, r: Reader, item: OutputItem)
    requires InStep(p, r) && item.SearchItem? && item.id in p.searchIndex
    ensures Follows(r, FinishSearch(p, p.searchIndex[item.id], item), r.completed + {item.id})
  {
    hide Read;
    var id, i := item.id, p.searchIndex[item.id];
    assert Announces(r, id, i);
    Read2(r, SearchProgress(id, i, Completed), ItemDone(i, item));
    var r' := r.(completed := r.completed + {id}, items := r.items[i := r.items[i].(done := Some(item))]);
    forall k | k in r.searches
      ensures Announces(r', k, r'.searches[k])
    {
      assert Announces(r, k, r.searches[k]);
    }
  }

  lemma SearchStartedFollows(lib: C.Libraries, p: Projection, r: Reader, s: HostedSearch)
    requires InStep(p, r) && r.completed <= p.searchIndex.Keys
    ensures var o := SearchStarted(lib, p, s);
            Follows(r, o, r.completed) && o.state.searchIndex.Keys == p.searchIndex.Keys + {SearchId(s)}
  {
    hide InStep, Read, SearchId, SearchAction, Settle;
    var id := SearchId(s);
    if id in p.searchIndex {
      QuietFollows(p, r);
    } else {
      var a := Settle(lib, p);
      SettleFollows(lib, p, r);
      AddSearchFollows(a.state, Read(Some(r), a.payloads).value, id, SearchAction(lib, s));
      ThenFollows(r, a, AddSearch(a.state, id, SearchAction(lib, s)), r.completed, r.completed);
    }
  }

  lemma SearchCompletedFollows(lib: C.Libraries, p: Projection, r: Reader, s: HostedSearch)
    requires InStep(p, r) && r.completed <= p.searchIndex.Keys
    ensures var o := SearchCompleted(lib, p, s);
            Follows(r, o, r.completed + {SearchId(s)}) && o.state.searchIndex.Keys == p.searchIndex.Keys + {SearchId(s)}
  {
    hide InStep, Read, SearchId, SearchAction, SearchStarted, C.SearchCitations;
    var a := SearchStarted(lib, p, s);
    SearchStartedFollows(lib, p, r, s);
    var r1 := Read(Some(r), a.payloads).value;
    var item := SearchItem(SearchId(s), SearchAction(lib, s));
    var b := FinishSearch(a.state, a.state.searchIndex[item.id], item);
    FinishSearchFollows(a.state, r1, item);
    var q := b.state.(citations := b.state.citations + C.SearchCitations(lib, s));
    UnseenFields(b.state, q, Read(Some(r1), b.payloads).value);
    ThenFollows(r, a, Out(q, b.payloads), r.completed, r.completed + {item.id});
  }

  // The client's copy of a function call while it streams.
  function Calling(r: Reader, item: OutputItem, text: string): Reader
    requires item.FunctionItem?
  {
    r.(items := r.items + [Item(item.(arguments := ""), text, None)], active := Some(|r.items|))
  }

  function Called(r: Reader, item: OutputItem): Reader
    requires item.FunctionItem?
  {
    r.(items := r.items + [Item(item.(arguments := ""), item.arguments, Some(item))], active := None)
  }

  lemma FunctionCallReads(r: Reader, item: OutputItem)
    requires r.started && r.answer.None? && r.active.None? && item.FunctionItem?
    ensures var (i, id) := (|r.items|, item.id);
            Read(Some(r), [ItemAdded(i, item.(arguments := "")), Delta(FunctionKind, id, i, item.arguments),
                           TextDone(FunctionKind, id, i, item.arguments), ItemDone(i, item)])
            == Some(Called(r, item))
  {
    hide Read;
    var (i, id) := (|r.items|, item.id);
    var a, b := ItemAdded(i, item.(arguments := "")), Delta(FunctionKind, id, i, item.arguments);
    var c, d := TextDone(FunctionKind, id, i, item.arguments), ItemDone(i, item);
    var r2 := Calling(r, item, item.arguments);
    assert Accept(Calling(r, item, ""), b) == Some(r2) by {
      assert "" + item.arguments == item.arguments;
      assert Calling(r, item, "").items[i := r2.items[i]] == r2.items;
    }
    Read3(r, a, b, c);
    assert r2.items[i := Called(r, item).items[i]] == Called(r, item).items;
    Read1(r2, d);
    ReadConcatenation(Some(r), [a, b, c], [d]);
    assert [a, b, c] + [d] == [a, b, c, d];
  }

  lemma CompletedCallInStep(p: Projection, r: Reader, item: OutputItem)
    requires InStep(p, r) && Settled(p) && item.FunctionItem?
    ensures InStep(p.(out := p.out + 1, byIndex := p.byIndex[p.out := item]), Called(r, item))
  {
    var r' := Called(r, item);
    forall id | id in r.searches
      ensures Announces(r', id, r'.searches[id])
    {
      assert Announces(r, id, r.searches[id]);
    }
  }

  lemma FunctionCallFollows(p: Projection, r: Reader, call: ToolCall)
    requires InStep(p, r) && Settled(p)
    ensures var o := FunctionCall(p, call); Follows(r, o, r.completed) && Settled(o.state)
  {
    hide Read, SearchesInStep;
    var item := FunctionCall(p, call).state.byIndex[p.out];
    FunctionCallReads(r, item);
    CompletedCallInStep(p, r, item);
  }

  lemma {:induction false} FunctionCallsFollow(p: Projection, r: Reader, calls: seq<ToolCall>)
    requires InStep(p, r) && Settled(p)
    ensures var o := FunctionCalls(p, calls); Follows(r, o, r.completed) && Settled(o.state)
  {
    hide InStep, Read, FunctionCall;
    if calls == [] {
      QuietFollows(p, r);
    } else {
      var rest := calls[..|calls| - 1];
      FunctionCallsFollow(p, r, rest);
      var a := FunctionCalls(p, rest);
      FunctionCallFollows(a.state, Read(Some(r), a.payloads).value, calls[|calls| - 1]);
      ThenFollows(r, a, FunctionCall(a.state, calls[|calls| - 1]), r.completed, r.completed);
    }
  }

  // The envelope lists the last completed form of every item, by index.
  lemma {:induction false} OutputIsDoneItems(byIndex: map<nat, OutputItem>, items: seq<Item>)
    requires forall i :: 0 <= i < |items| ==> items[i].done == Get(byIndex, i)
    ensures OutputList(byIndex, |items|) == DoneItems(items)
  {
    if items != [] {
      OutputIsDoneItems(byIndex, items[..|items| - 1]);
    }
  }

  // ---------------------------------------------------------------------
  // Whole generations
  // ---------------------------------------------------------------------

  // The searches that completed while the stream ran.
  function CompletedSearches(lib: C.Libraries, s: Session, events: seq<Event>): set<string> {
    if events == [] then {}
    else
      var (rest, e) := (events[..|events| - 1], events[|events| - 1]);
      CompletedSearches(lib, s, rest)
      + if Run(lib, s, rest).status == C.Running && e.kind == HostedSearchCompleted && e.search.Some? then {SearchId(e.search.value)} else {}
  }

  // What the client knows at the end: an index without a completed item is a
  // search that was announced and never completed, and nothing else.
  predicate MissingOnlySearches(r: Reader) {
    forall i :: 0 <= i < |r.items| ==>
      (r.items[i].done.None? <==> r.items[i].opening.SearchItem? && r.items[i].opening.id !in r.completed)
  }

  // The client holds the answer of the finished projection.
  predicate Answers(r: Reader, p: Projection) {
    r.answer == Some(NonStream(p)) && NonStream(p).output == DoneItems(r.items) && MissingOnlySearches(r)
  }

  predicate StepAgrees(o: Outcome, r': Option<Reader>, completed: set<string>) {
    && r'.Some? && r'.value.completed == completed
    && (o.status.Running? ==> InStep(o.state, r'.value) && completed <= o.state.searchIndex.Keys)
    && (o.status.Finished? ==> Answers(r'.value, o.state))
  }

  lemma FinishReads(p: Projection, r: Reader)
    requires InStep(p, r) && Settled(p)
    ensures Read(Some(r), Finish(p)) == Some(r.(answer := Some(NonStream(p)))) && NonStream(p).output == DoneItems(r.items)
  {
    hide Read, SearchesInStep;
    OutputIsDoneItems(p.byIndex, r.items);
    Read1(r, ResponseCompleted(NonStream(p).output, NonStream(p).facts));
  }

  lemma FinishAgrees(r: Reader, o: Out, park: bool, r1: Reader)
    requires Read(Some(r), o.payloads) == Some(r1) && InStep(o.state, r1) && Settled(o.state)
    ensures var r' := r1.(answer := Some(NonStream(o.state)));
            Read(Some(r), FinishAfter(o, park).payloads) == Some(r') && Answers(r', o.state)
  {
    hide Read, InStep, MissingOnlySearches, Finish;
    ReadConcatenation(Some(r), o.payloads, Finish(o.state));
    FinishReads(o.state, r1);
    SettledMissesOnlySearches(o.state, r1);
  }

  lemma SettledMissesOnlySearches(p: Projection, r: Reader)
    requires InStep(p, r) && Settled(p)
    ensures forall answer :: MissingOnlySearches(r.(answer := answer))
  {
    forall i | 0 <= i < |r.items|
      ensures r.items[i].done.None? <==> r.items[i].opening.SearchItem? && r.items[i].opening.id !in r.completed
    {
      if r.items[i].opening.SearchItem? {
        assert Announces(r, r.items[i].opening.id, i);
      }
    }
  }

  function Completion(e: Event): set<string> {
    if e.kind == HostedSearchCompleted && e.search.Some? then {SearchId(e.search.value)} else {}
  }

  lemma ContinueAgrees(r: Reader, o: Out, completed: set<string>)
    requires Follows(r, o, completed) && completed <= o.state.searchIndex.Keys
    ensures StepAgrees(Continue(o), Read(Some(r), o.payloads), completed)
  {
    hide Read, InStep;
  }

  lemma OpeningKeepsSearches(lib: C.Libraries, p: Projection, text: string)
    ensures EmitText(p, text).state.searchIndex == p.searchIndex
    ensures EmitThinking(lib, p, text).state.searchIndex == p.searchIndex
    ensures CloseReasoning(p).state.searchIndex == p.searchIndex
  {
    hide Annotations, ItemId;
  }

  lemma HandleAgrees(lib: C.Libraries, p0: Projection, r: Reader, e: Event)
    requires InStep(p0, r) && r.completed <= p0.searchIndex.Keys
    ensures var o := Handle(lib, p0, e); StepAgrees(o, Read(Some(r), o.payloads), r.completed + Completion(e))
  {
    hide InStep, Read, Observe, SearchStarted, SearchCompleted, EmitText, EmitThinking, CloseReasoning, Settle,
        FunctionCalls,
      Finish, SearchId, Answers;
    var p := p0.(facts := Observe(p0.facts, e));
    UnseenFields(p0, p, r);
    var q := p.(semantic := true);
    UnseenFields(p0, q, r);
    OpeningKeepsSearches(lib, p, e.text);
    assert r.completed + {} == r.completed;
    match e.kind {
      case HostedSearchStarted =>
        if e.search.Some? {
          SearchStartedFollows(lib, q, r, e.search.value);
          ContinueAgrees(r, SearchStarted(lib, q, e.search.value), r.completed);
        } else {
          QuietAgrees(q, r);
        }
      case HostedSearchCompleted =>
        if e.search.Some? {
          SearchCompletedFollows(lib, q, r, e.search.value);
          ContinueAgrees(r, SearchCompleted(lib, q, e.search.value), r.completed + Completion(e));
        } else {
          QuietAgrees(q, r);
        }
      case Text =>
        EmitTextFollows(p, r, e.text);
        ContinueAgrees(r, EmitText(p, e.text), r.completed);
      case Thinking =>
        if e.text == "" {
          QuietAgrees(p, r);
        } else {
          EmitThinkingFollows(lib, p, r, e.text);
          ContinueAgrees(r, EmitThinking(lib, p, e.text), r.completed);
        }
      case ThinkingCompleted =>
        CloseReasoningFollows(p, r);
        ContinueAgrees(r, CloseReasoning(p), r.completed);
      case TurnEnded =>
        if p.toolCalls == [] {
          FailedAgrees(p, r);
        } else {
          HandoffFollows(lib, p, r);
          var a := Settle(lib, p);
          var o := a.Then(FunctionCalls(a.state, p.toolCalls));
          FinishAgrees(r, o, true, Read(Some(r), o.payloads).value);
        }
      case Done =>
        SettleFollows(lib, p, r);
        FinishAgrees(r, Settle(lib, p), false, Read(Some(r), Settle(lib, p).payloads).value);
      case _ =>
        var o := Handle(lib, p0, e);
        UnseenFields(p0, o.state, r);
        QuietAgrees(o.state, r);
    }
  }

  lemma FailedAgrees(p: Projection, r: Reader)
    ensures StepAgrees(Outcome(p, [], C.Failed), Read(Some(r), []), r.completed)
  {}

  lemma QuietAgrees(p: Projection, r: Reader)
    requires InStep(p, r) && r.completed <= p.searchIndex.Keys
    ensures StepAgrees(Continue(Out(p, [])), Read(Some(r), []), r.completed)
  {
    hide InStep;
  }

  lemma HandoffFollows(lib: C.Libraries, p: Projection, r: Reader)
    requires InStep(p, r)
    ensures var a := Settle(lib, p);
            var o := a.Then(FunctionCalls(a.state, p.toolCalls));
            Follows(r, o, r.completed) && Settled(o.state)
  {
    hide InStep, Read, Settle, FunctionCalls;
    var a := Settle(lib, p);
    SettleFollows(lib, p, r);
    FunctionCallsFollow(a.state, Read(Some(r), a.payloads).value, p.toolCalls);
    ThenFollows(r, a, FunctionCalls(a.state, p.toolCalls), r.completed, r.completed);
  }

  predicate Agrees(s: Session, completed: set<string>) {
    StepAgrees(Outcome(s.p, [], s.status), Read(Some(NEW_READER), s.stream), completed)
  }

  lemma {:induction false} RunAgrees(lib: C.Libraries, response: string, measured: bool, events: seq<Event>)
    ensures var s0 := NewSession(response, measured); Agrees(Run(lib, s0, events), CompletedSearches(lib, s0, events))
  {
    hide Handle, Read, InStep, Answers, SearchId;
    var s0 := NewSession(response, measured);
    if events == [] {
      FreshInStep(response, measured);
      ReadNothing(NEW_READER);
    } else {
      var n := |events| - 1;
      RunAgrees(lib, response, measured, events[..n]);
      var s := Run(lib, s0, events[..n]);
      if s.status == C.Running {
        HandleAgrees(lib, s.p, Read(Some(NEW_READER), s.stream).value, events[n]);
        ReadConcatenation(Some(NEW_READER), s.stream, Handle(lib, s.p, events[n]).payloads);
      }
    }
  }

  lemma FreshInStep(response: string, measured: bool)
    ensures InStep(NewProjection(response, measured), NEW_READER)
  {}

  // Every stream follows the protocol: items are added at 0, 1, 2, ..., an item's
  // done text is the concatenation of its deltas, and only announced items
  // complete.  The last event of a finished stream carries the non-stream
  // envelope, which lists the last completed form of every index in order; an
  // index without one is a search that never completed.
  lemma StreamReassembles(lib: C.Libraries, response: string, measured: bool, events: seq<Event>)
    ensures var s := Run(lib, NewSession(response, measured), events);
            var r := Read(Some(NEW_READER), s.stream);
            && r.Some?
            && (s.status.Finished? ==>
                  && r.value.answer == Some(NonStream(s.p))
                  && NonStream(s.p).output == DoneItems(r.value.items)
                  && forall i :: 0 <= i < |r.value.items| ==>
                       var it := r.value.items[i];
                       it.done.None? <==>
                         it.opening.SearchItem? && it.opening.id !in CompletedSearches(lib, NewSession(response, measured), events))
  {
    hide Run, Read, CompletedSearches, InStep, DoneItems;
    RunAgrees(lib, response, measured, events);
  }
}
