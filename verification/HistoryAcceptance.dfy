// full_history.go: which histories are rebuilt, and with which error the others are
// refused, in terms of the client's messages alone.
module HistoryAcceptances {
  import opened Events
  import opened Strings
  import opened ToolIds
  import opened FullHistories

  // ---------------------------------------------------------------------
  // A history as a list of what the rebuild comes across
  // ---------------------------------------------------------------------

  // A user turn with the ids its message answers, a content block, or something that
  // cannot be read.
  datatype Token = Turn(answered: set<string>) | Said(role: string, omit: bool, block: Block) | Unreadable

  function BlockTokens(role: string, omit: bool, blocks: seq<Block>): seq<Token> {
    seq(|blocks|, i requires 0 <= i < |blocks| => Said(role, omit, blocks[i]))
  }

  function MessageTokens(m: Message, omit: bool): seq<Token> {
    if m.NotAMessage? then [Unreadable]
    else
      (if Trim(m.role) == "user" then [Turn(AnsweredIds(m.content))] else [])
      + match m.content
        case PlainText(_) => []
        case BadContent => [Unreadable]
        case Blocks(blocks) => BlockTokens(Trim(m.role), omit, blocks)
  }

  function Tokens(messages: seq<Message>, omitLastText: bool, n: nat): seq<Token>
    requires n <= |messages|
  {
    if n == 0 then [] else Tokens(messages, omitLastText, n - 1) + MessageTokens(messages[n - 1], omitLastText && n == |messages|)
  }

  // ---------------------------------------------------------------------
  // What fits
  // ---------------------------------------------------------------------

  predicate IsCompaction(t: Token) {
    t.Said? && t.block.kind.CompactionBlock?
  }

  // What came after the last compaction.
  function Since(tokens: seq<Token>): seq<Token> {
    if tokens == [] || IsCompaction(tokens[|tokens| - 1]) then []
    else Since(tokens[..|tokens| - 1]) + [tokens[|tokens| - 1]]
  }

  predicate IsCall(t: Token, id: string, server: bool) {
    t.Said? && t.block.kind.CallBlock? && Trim(t.block.kind.id) == id && t.block.kind.server == server
  }

  // A result closes its call, and a user turn every client's call that its message
  // does not answer.
  predicate Closes(t: Token, id: string, server: bool) {
    || (t.Said? && t.block.kind.ResultBlock? && Trim(t.block.toolUseId) == id)
    || (t.Turn? && !server && id !in t.answered)
  }

  predicate CalledAs(said: seq<Token>, id: string, server: bool) {
    exists i :: 0 <= i < |said| && IsCall(said[i], id, server)
  }

  predicate Called(said: seq<Token>, id: string) {
    CalledAs(said, id, true) || CalledAs(said, id, false)
  }

  predicate Closed(said: seq<Token>, id: string, server: bool) {
    exists i, j :: 0 <= i < j < |said| && IsCall(said[i], id, server) && Closes(said[j], id, server)
  }

  // A result block belongs to an earlier call of its own kind that is still open.
  predicate Answers(said: seq<Token>, block: Block)
    requires block.kind.ResultBlock?
  {
    var id := Trim(block.toolUseId);
    id != "" && CalledAs(said, id, block.kind.server) && !Closed(said, id, block.kind.server)
  }

  predicate BlockFits(said: seq<Token>, role: string, omit: bool, block: Block) {
    match block.kind
    case TextBlock(text, _) => text.Some?
    case MediaBlock(converted) => omit || converted.Some?
    case ThinkingBlock(_, _) => role == "assistant"
    case RedactedBlock(_) => role == "assistant"
    case CompactionBlock(summary) => role == "assistant" && summary.Some? && Trim(summary.value) != ""
    case CallBlock(_, id, name, input) =>
      role == "assistant" && Trim(id) != "" && Trim(name) != "" && input.Some? && !Called(said, Trim(id))
    case ResultBlock(_, result) => Answers(said, block) && result.Ok?
    case UploadBlock => false
    case OtherBlock => false
    case NoObject => false
  }

  predicate Fits(said: seq<Token>, t: Token) {
    match t
    case Turn(_) => true
    case Said(role, omit, block) => BlockFits(said, role, omit, block)
    case Unreadable => false
  }

  predicate AllFit(tokens: seq<Token>) {
    forall k :: 0 <= k < |tokens| ==> Fits(Since(tokens[..k]), tokens[k])
  }

  // Media that cannot be converted and content of a result that cannot be taken have
  // their own errors.
  function ErrorOf(said: seq<Token>, t: Token): HistoryError {
    if !t.Said? then InvalidHistory
    else match t.block.kind
      case MediaBlock(_) => Unprocessable
      case ResultBlock(_, result) => if Answers(said, t.block) && result.Err? then result.error else InvalidHistory
      case _ => InvalidHistory
  }

  // The first token that does not fit, and its error.
  predicate FailsAt(tokens: seq<Token>, k: nat, err: HistoryError)
    requires k < |tokens|
  {
    AllFit(tokens[..k]) && !Fits(Since(tokens[..k]), tokens[k]) && err == ErrorOf(Since(tokens[..k]), tokens[k])
  }

  predicate FailsWith(tokens: seq<Token>, err: HistoryError) {
    exists k :: 0 <= k < |tokens| && FailsAt(tokens, k, err)
  }

  // The server's calls all have their results.
  ghost predicate ServerAnswered(tokens: seq<Token>) {
    forall id :: CalledAs(Since(tokens), id, true) ==> Closed(Since(tokens), id, true)
  }

  // ---------------------------------------------------------------------
  // One token more
  // ---------------------------------------------------------------------

  lemma SinceLast(tokens: seq<Token>, t: Token)
    ensures Since(tokens + [t]) == if IsCompaction(t) then [] else Since(tokens) + [t]
  {
    assert (tokens + [t])[..|tokens|] == tokens;
  }

  lemma CalledLast(said: seq<Token>, t: Token, id: string, server: bool)
    ensures CalledAs(said + [t], id, server) <==> CalledAs(said, id, server) || IsCall(t, id, server)
  {
    hide IsCall;
    var all := said + [t];
    assert all[|said|] == t;
    if CalledAs(said, id, server) {
      var i :| 0 <= i < |said| && IsCall(said[i], id, server);
      assert all[i] == said[i];
    }
  }

  lemma ClosedLast(said: seq<Token>, t: Token, id: string, server: bool)
    ensures Closed(said + [t], id, server) <==> Closed(said, id, server) || (CalledAs(said, id, server) && Closes(t, id, server))
  {
    hide IsCall, Closes;
    var all := said + [t];
    assert all[|said|] == t && forall i :: 0 <= i < |said| ==> all[i] == said[i];
    if Closed(said, id, server) {
      var i, j :| 0 <= i < j < |said| && IsCall(said[i], id, server) && Closes(said[j], id, server);
      assert all[i] == said[i] && all[j] == said[j];
    }
    if CalledAs(said, id, server) && Closes(t, id, server) {
      var i :| 0 <= i < |said| && IsCall(said[i], id, server);
      assert all[i] == said[i] && Closes(all[|said|], id, server);
    }
    if Closed(all, id, server) {
      var i, j :| 0 <= i < j < |all| && IsCall(all[i], id, server) && Closes(all[j], id, server);
      assert IsCall(said[i], id, server) && (j < |said| ==> Closes(said[j], id, server));
    }
  }

  lemma AllFitLast(tokens: seq<Token>, t: Token)
    ensures AllFit(tokens + [t]) <==> AllFit(tokens) && Fits(Since(tokens), t)
  {
    hide Fits, Since;
    var all := tokens + [t];
    assert all[..|tokens|] == tokens && all[|tokens|] == t;
    assert forall k :: 0 <= k < |tokens| ==> all[..k] == tokens[..k] && all[k] == tokens[k];
  }

  // A history that has failed stays failed.
  lemma FailureStays(tokens: seq<Token>, more: seq<Token>, err: HistoryError)
    requires FailsWith(tokens, err)
    ensures FailsWith(tokens + more, err) && !AllFit(tokens + more)
  {
    hide Fits, Since, AllFit, ErrorOf;
    var k :| 0 <= k < |tokens| && FailsAt(tokens, k, err);
    assert (tokens + more)[..k] == tokens[..k] && (tokens + more)[k] == tokens[k];
    assert FailsAt(tokens + more, k, err);
    assert !AllFit(tokens + more) by { OneMisfit(tokens + more, k); }
  }

  lemma OneMisfit(tokens: seq<Token>, k: nat)
    requires k < |tokens| && !Fits(Since(tokens[..k]), tokens[k])
    ensures !AllFit(tokens)
  {
    hide Fits, Since;
  }

  // ---------------------------------------------------------------------
  // The loop's tables
  // ---------------------------------------------------------------------

  // names, serverCalls and resolved say what the history since the last compaction
  // says about an id.
  predicate Tabled(st: State, said: seq<Token>, id: string) {
    && (id in st.names <==> Called(said, id))
    && (id in st.calls <==> id in st.names)
    && (id in st.server <==> CalledAs(said, id, true))
    && (CalledAs(said, id, true) ==> !CalledAs(said, id, false))
    && (id in st.resolved <==> Closed(said, id, true) || Closed(said, id, false))
  }

  ghost predicate Tables(st: State, said: seq<Token>) {
    forall id :: Tabled(st, said, id)
  }

  // How far the rebuild has come with these tokens.
  ghost predicate Verdict(tokens: seq<Token>, result: Outcome<State>) {
    if result.Ok? then AllFit(tokens) && Tables(result.value, Since(tokens)) else FailsWith(tokens, result.error)
  }

  lemma ClosedIsCalled(said: seq<Token>, id: string, server: bool)
    requires Closed(said, id, server)
    ensures CalledAs(said, id, server)
  {}

  lemma {:induction false} FlushCloses(st: State, ids: seq<string>, answeredNow: set<string>, id: string)
    ensures var t := Flush(st, ids, answeredNow);
            && t == st.(out := t.out, resolved := t.resolved)
            && (id in t.resolved <==> id in st.resolved || (id in ids && id in st.names && id !in st.server && id !in answeredNow))
  {
    if ids != [] {
      FlushCloses(st, ids[..|ids| - 1], answeredNow, id);
      assert ids == ids[..|ids| - 1] + [ids[|ids| - 1]];
    }
  }

  lemma TurnKeepsTables(st: State, said: seq<Token>, answered: set<string>)
    requires Tables(st, said)
    ensures Tables(FlushAll(st, answered), said + [Turn(answered)])
  {
    hide Trim, Flush, SortedSet, CalledAs, Closed;
    var (t, u) := (FlushAll(st, answered), Turn(answered));
    forall id
      ensures Tabled(t, said + [u], id)
    {
      assert Tabled(st, said, id);
      FlushCloses(st, SortedSet(st.calls), answered, id);
      assert id in SortedSet(st.calls) <==> id in Elements(st.calls);
      CalledLast(said, u, id, true);
      CalledLast(said, u, id, false);
      ClosedLast(said, u, id, true);
      ClosedLast(said, u, id, false);
    }
  }

  // A block that is neither a call nor a result nor a compaction changes no table.
  lemma OtherKeepsTables(st: State, t: State, said: seq<Token>, u: Token)
    requires Tables(st, said) && t == st.(out := t.out, parts := t.parts)
    requires u.Said? && !u.block.kind.CallBlock? && !u.block.kind.ResultBlock?
    ensures Tables(t, said + [u])
  {
    hide Trim, CalledAs, Closed;
    forall id
      ensures Tabled(t, said + [u], id)
    {
      assert Tabled(st, said, id);
      CalledLast(said, u, id, true);
      CalledLast(said, u, id, false);
      ClosedLast(said, u, id, true);
      ClosedLast(said, u, id, false);
    }
  }

  lemma CallKeepsTables(st: State, said: seq<Token>, u: Token)
    requires Tables(st, said) && u.Said? && u.block.kind.CallBlock?
    ensures AddCall(st, u.role, u.block.kind).Ok? <==> Fits(said, u)
    ensures AddCall(st, u.role, u.block.kind).Ok? ==> Tables(AddCall(st, u.role, u.block.kind).value, said + [u])
    ensures AddCall(st, u.role, u.block.kind).Err? ==> AddCall(st, u.role, u.block.kind).error == InvalidHistory
  {
    hide Trim, CalledAs, Closed;
    var added := AddCall(st, u.role, u.block.kind);
    assert Tabled(st, said, Trim(u.block.kind.id));
    if added.Ok? {
      forall id
        ensures Tabled(added.value, said + [u], id)
      {
        assert Tabled(st, said, id);
        CalledLast(said, u, id, true);
        CalledLast(said, u, id, false);
        ClosedLast(said, u, id, true);
        ClosedLast(said, u, id, false);
      }
    }
  }

  lemma ResultKeepsTables(st: State, said: seq<Token>, u: Token)
    requires Tables(st, said) && u.Said? && u.block.kind.ResultBlock?
    ensures AddResult(st, u.role, u.block).Ok? <==> Fits(said, u)
    ensures AddResult(st, u.role, u.block).Ok? ==> Tables(AddResult(st, u.role, u.block).value, said + [u])
    ensures AddResult(st, u.role, u.block).Err? ==> AddResult(st, u.role, u.block).error == ErrorOf(said, u)
  {
    hide Trim, CalledAs, Closed;
    var (added, own) := (AddResult(st, u.role, u.block), Trim(u.block.toolUseId));
    assert Tabled(st, said, own);
    forall server | Closed(said, own, server)
      ensures CalledAs(said, own, server)
    {
      ClosedIsCalled(said, own, server);
    }
    if added.Ok? {
      forall id
        ensures Tabled(added.value, said + [u], id)
      {
        assert Tabled(st, said, id);
        CalledLast(said, u, id, true);
        CalledLast(said, u, id, false);
        ClosedLast(said, u, id, true);
        ClosedLast(said, u, id, false);
      }
    }
  }

  lemma NothingTabled(st: State)
    requires st == EMPTY.(out := st.out)
    ensures Tables(st, [])
  {}

  // The step of the loop for one block.
  lemma BlockStep(st: State, said: seq<Token>, u: Token)
    requires Tables(st, said) && u.Said?
    ensures var added := AddBlock(st, u.role, u.omit, u.block);
            && (added.Ok? <==> Fits(said, u))
            && (added.Ok? ==> Tables(added.value, if IsCompaction(u) then [] else said + [u]))
            && (added.Err? ==> added.error == ErrorOf(said, u))
  {
    hide Trim, Tables, Called, Answers, AddCall, AddResult;
    var added := AddBlock(st, u.role, u.omit, u.block);
    match u.block.kind {
      case CallBlock(_, _, _, _) => CallKeepsTables(st, said, u);
      case ResultBlock(_, _) => ResultKeepsTables(st, said, u);
      case CompactionBlock(_) =>
        if added.Ok? {
          NothingTabled(added.value);
        }
      case UploadBlock =>
      case OtherBlock =>
      case NoObject =>
      case _ =>
        if added.Ok? {
          OtherKeepsTables(st, added.value, said, u);
        }
    }
  }

  // ---------------------------------------------------------------------
  // The loops
  // ---------------------------------------------------------------------

  lemma VerdictOfBlock(tokens: seq<Token>, st: State, u: Token)
    requires Verdict(tokens, Ok(st)) && u.Said?
    ensures Verdict(tokens + [u], AddBlock(st, u.role, u.omit, u.block))
  {
    hide AddBlock, Tables, AllFit, Fits, ErrorOf, Since;
    SinceLast(tokens, u);
    AllFitLast(tokens, u);
    BlockStep(st, Since(tokens), u);
    var added := AddBlock(st, u.role, u.omit, u.block);
    if added.Err? {
      FailsNow(tokens, u, added.error);
    }
  }

  lemma FailsNow(tokens: seq<Token>, u: Token, err: HistoryError)
    requires AllFit(tokens) && !Fits(Since(tokens), u) && err == ErrorOf(Since(tokens), u)
    ensures FailsWith(tokens + [u], err)
  {
    hide AllFit, Fits, ErrorOf, Since;
    assert (tokens + [u])[..|tokens|] == tokens && (tokens + [u])[|tokens|] == u;
    assert FailsAt(tokens + [u], |tokens|, err);
  }

  lemma {:induction false} VerdictOfBlocks(tokens: seq<Token>, st: State, role: string, omit: bool, blocks: seq<Block>)
    requires Verdict(tokens, Ok(st))
    ensures Verdict(tokens + BlockTokens(role, omit, blocks), AddBlocks(st, role, omit, blocks))
  {
    hide Verdict, AddBlock;
    if blocks == [] {
      assert tokens + BlockTokens(role, omit, blocks) == tokens;
    } else {
      var (before, last) := (blocks[..|blocks| - 1], Said(role, omit, blocks[|blocks| - 1]));
      var so := tokens + BlockTokens(role, omit, before);
      VerdictOfBlocks(tokens, st, role, omit, before);
      assert tokens + BlockTokens(role, omit, blocks) == so + [last];
      var added := AddBlocks(st, role, omit, before);
      if added.Ok? {
        VerdictOfBlock(so, added.value, last);
      } else {
        VerdictStays(so, [last], added.error);
      }
    }
  }

  lemma VerdictStays(tokens: seq<Token>, more: seq<Token>, err: HistoryError)
    requires Verdict(tokens, Err(err))
    ensures Verdict(tokens + more, Err(err))
  {
    hide FailsWith;
    FailureStays(tokens, more, err);
  }

  lemma VerdictOfTurn(tokens: seq<Token>, st: State, answered: set<string>)
    requires Verdict(tokens, Ok(st))
    ensures Verdict(tokens + [Turn(answered)], Ok(FlushAll(st, answered)))
  {
    hide Tables, AllFit, Since, FlushAll;
    SinceLast(tokens, Turn(answered));
    AllFitLast(tokens, Turn(answered));
    TurnKeepsTables(st, Since(tokens), answered);
  }

  lemma VerdictOfUnreadable(tokens: seq<Token>, st: State)
    requires Verdict(tokens, Ok(st))
    ensures Verdict(tokens + [Unreadable], Err(InvalidHistory))
  {
    hide Tables, AllFit, Since;
    FailsNow(tokens, Unreadable, InvalidHistory);
  }

  // The tables do not look at the messages that were put out.
  lemma VerdictIgnoresOutput(tokens: seq<Token>, st: State, t: State)
    requires Verdict(tokens, Ok(st)) && t == st.(out := t.out, parts := t.parts)
    ensures Verdict(tokens, Ok(t))
  {
    hide AllFit, Since, Called, CalledAs, Closed;
    forall id
      ensures Tabled(t, Since(tokens), id)
    {
      assert Tabled(st, Since(tokens), id);
    }
  }

  lemma VerdictOfMessage(tokens: seq<Token>, st: State, m: Message, omit: bool)
    requires Verdict(tokens, Ok(st))
    ensures Verdict(tokens + MessageTokens(m, omit), AddMessage(st, m, omit))
  {
    hide Verdict, Trim, FlushAll, AnsweredIds, AddBlocks, BlockTokens, AppendMessage;
    if m.NotAMessage? {
      VerdictOfUnreadable(tokens, st);
    } else {
      var user := Trim(m.role) == "user";
      var turn := if user then [Turn(AnsweredIds(m.content))] else [];
      var flushed := if user then FlushAll(st, AnsweredIds(m.content)) else st;
      if user {
        VerdictOfTurn(tokens, st, AnsweredIds(m.content));
      }
      assert Verdict(tokens + turn, Ok(flushed)) by { assert !user ==> tokens + turn == tokens; }
      match m.content {
        case PlainText(text) =>
          assert turn + [] == turn;
          VerdictIgnoresOutput(tokens + turn, flushed, AddMessage(st, m, omit).value);
        case BadContent =>
          VerdictOfUnreadable(tokens + turn, flushed);
          assert tokens + turn + [Unreadable] == tokens + (turn + [Unreadable]);
        case Blocks(blocks) =>
          var all := BlockTokens(Trim(m.role), omit, blocks);
          VerdictOfBlocks(tokens + turn, flushed, Trim(m.role), omit, blocks);
          assert tokens + turn + all == tokens + (turn + all);
          var added := AddBlocks(flushed, Trim(m.role), omit, blocks);
          if added.Ok? {
            VerdictIgnoresOutput(tokens + (turn + all), added.value, AddMessage(st, m, omit).value);
          }
      }
    }
  }

  lemma VerdictOfNothing()
    ensures Verdict([], Ok(EMPTY))
  {
    NothingTabled(EMPTY);
  }

  lemma {:induction false} VerdictOfMessages(messages: seq<Message>, omitLastText: bool, n: nat)
    requires n <= |messages|
    ensures Verdict(Tokens(messages, omitLastText, n), AddMessages(messages, omitLastText, n))
  {
    hide Verdict, AddMessage, MessageTokens;
    if n == 0 {
      VerdictOfNothing();
    } else {
      VerdictOfMessages(messages, omitLastText, n - 1);
      var before := AddMessages(messages, omitLastText, n - 1);
      var omit := omitLastText && n == |messages|;
      if before.Ok? {
        VerdictOfMessage(Tokens(messages, omitLastText, n - 1), before.value, messages[n - 1], omit);
      } else {
        VerdictStays(Tokens(messages, omitLastText, n - 1), MessageTokens(messages[n - 1], omit), before.error);
      }
    }
  }

  // ---------------------------------------------------------------------
  // Acceptance
  // ---------------------------------------------------------------------

  // A history is accepted exactly when each of its blocks fits what was said since
  // the last compaction and every call of the server has its result.  Otherwise its
  // error is that of the first block that does not fit, or, if all do, a conflict.
  lemma AcceptedIff(messages: seq<Message>, omitLastText: bool)
    ensures var (tokens, history) := (Tokens(messages, omitLastText, |messages|), Structured(messages, omitLastText));
            && (history.Ok? <==> AllFit(tokens) && ServerAnswered(tokens))
            && (history == Err(Conflict) <== AllFit(tokens) && !ServerAnswered(tokens))
            && (!AllFit(tokens) ==> history.Err? && FailsWith(tokens, history.error))
  {
    hide AddMessages, AllFit, Since, CalledAs, Closed, FlushAll, FailsWith;
    var (tokens, result) := (Tokens(messages, omitLastText, |messages|), AddMessages(messages, omitLastText, |messages|));
    VerdictOfMessages(messages, omitLastText, |messages|);
    if result.Err? {
      assert tokens + [] == tokens;
      FailureStays(tokens, [], result.error);
    } else {
      ServerCallsAnswered(tokens, result.value);
    }
  }

  lemma ServerCallsAnswered(tokens: seq<Token>, st: State)
    requires Tables(st, Since(tokens))
    ensures ServerAnswered(tokens) <==> !exists id :: id in st.server && id !in st.resolved
  {
    hide Since, CalledAs, Closed;
    var said := Since(tokens);
    forall id
      ensures id in st.server && id in st.resolved <==> CalledAs(said, id, true) && Closed(said, id, true)
      ensures id in st.server <==> CalledAs(said, id, true)
    {
      assert Tabled(st, said, id);
      if Closed(said, id, false) {
        ClosedIsCalled(said, id, false);
      }
    }
  }

  lemma {:induction false} TokensOfPrefix(messages: seq<Message>, more: seq<Message>, n: nat)
    requires n <= |messages|
    ensures Tokens(messages + more, false, n) == Tokens(messages, false, n)
  {
    hide MessageTokens;
    if n > 0 {
      TokensOfPrefix(messages, more, n - 1);
    }
  }

  // A call of an assistant turn, and the user turn with its result.
  function CallTurn(server: bool, id: string, name: string, input: string): Message {
    Message("assistant", Blocks([Block(CallBlock(server, id, name, Some(input)), "")]))
  }

  function ResultTurn(server: bool, id: string, answer: Answer): Message {
    Message("user", Blocks([Block(ResultBlock(server, Ok(answer)), id)]))
  }

  lemma TurnTokens(call: Message, result: Message)
    requires call.Message? && call.role == "assistant" && call.content.Blocks? && |call.content.blocks| == 1
    requires result.Message? && result.role == "user" && result.content.Blocks? && |result.content.blocks| == 1
    ensures MessageTokens(call, false) == [Said("assistant", false, call.content.blocks[0])]
    ensures MessageTokens(result, false) == [Turn(AnsweredIds(result.content)), Said("user", false, result.content.blocks[0])]
  {
    TrimStrips("assistant");
    TrimStrips("user");
  }

  lemma ExchangeTokens(messages: seq<Message>, call: Message, result: Message)
    requires call.Message? && call.role == "assistant" && call.content.Blocks? && |call.content.blocks| == 1
    requires result.Message? && result.role == "user" && result.content.Blocks? && |result.content.blocks| == 1
    ensures Tokens(messages + [call, result], false, |messages| + 2)
         == Tokens(messages, false, |messages|) + [Said("assistant", false, call.content.blocks[0])]
            + [Turn(AnsweredIds(result.content))] + [Said("user", false, result.content.blocks[0])]
  {
    hide MessageTokens;
    TokensOfPrefix(messages, [call, result], |messages|);
    TurnTokens(call, result);
    var all := messages + [call, result];
    assert Tokens(all, false, |messages| + 1) == Tokens(all, false, |messages|) + MessageTokens(call, false);
    assert Tokens(all, false, |messages| + 2) == Tokens(all, false, |messages| + 1) + MessageTokens(result, false);
  }

  // After a call with a fresh id the result that answers it fits exactly if it is of
  // the call's kind.
  lemma ExchangeFits(tokens: seq<Token>, c: Token, t: Token, r: Token, id: string, server: bool, asServer: bool)
    requires AllFit(tokens) && ServerAnswered(tokens) && id != "" && !Called(Since(tokens), id)
    requires IsCall(c, id, server) && Fits(Since(tokens), c) && t == Turn({id})
    requires r.Said? && r.block.kind.ResultBlock? && r.block.kind.server == asServer && r.block.kind.result.Ok?
    requires Trim(r.block.toolUseId) == id
    ensures AllFit(tokens + [c] + [t] + [r]) <==> asServer == server
    ensures asServer == server ==> ServerAnswered(tokens + [c] + [t] + [r])
    ensures asServer != server ==> AllFit(tokens + [c] + [t]) && ErrorOf(Since(tokens + [c] + [t]), r) == InvalidHistory
  {
    hide Trim, AllFit, Since, CalledAs, Closed;
    var said := Since(tokens);
    AllFitLast(tokens, c);
    AllFitLast(tokens + [c], t);
    AllFitLast(tokens + [c] + [t], r);
    SinceLast(tokens, c);
    SinceLast(tokens + [c], t);
    SinceLast(tokens + [c] + [t], r);
    forall k, s
      ensures CalledAs(said + [c] + [t], k, s) <==> CalledAs(said, k, s) || IsCall(c, k, s)
      ensures CalledAs(said + [c] + [t] + [r], k, s) <==> CalledAs(said, k, s) || IsCall(c, k, s)
      ensures Closed(said, k, s) ==> Closed(said + [c] + [t] + [r], k, s)
      ensures k == id ==> !Closed(said + [c] + [t], k, s) && (CalledAs(said + [c] + [t], k, s) ==> Closed(said + [c] + [t] + [r], k, s))
    {
      ThreeMore(said, c, t, r, k, s);
      if Closed(said, id, s) {
        ClosedIsCalled(said, id, s);
      }
    }
  }

  lemma ThreeMore(said: seq<Token>, c: Token, t: Token, r: Token, id: string, server: bool)
    ensures CalledAs(said + [c] + [t], id, server) <==> CalledAs(said, id, server) || IsCall(c, id, server) || IsCall(t, id, server)
    ensures CalledAs(said + [c] + [t] + [r], id, server) <==> CalledAs(said + [c] + [t], id, server) || IsCall(r, id, server)
    ensures Closed(said + [c], id, server) <==> Closed(said, id, server) || (CalledAs(said, id, server) && Closes(c, id, server))
    ensures Closed(said + [c] + [t], id, server)
       <==> Closed(said + [c], id, server) || (CalledAs(said + [c], id, server) && Closes(t, id, server))
    ensures Closed(said + [c] + [t] + [r], id, server)
       <==> Closed(said + [c] + [t], id, server) || (CalledAs(said + [c] + [t], id, server) && Closes(r, id, server))
  {
    hide CalledAs, Closed, IsCall, Closes;
    CalledLast(said, c, id, server);
    CalledLast(said + [c], t, id, server);
    CalledLast(said + [c] + [t], r, id, server);
    ClosedLast(said, c, id, server);
    ClosedLast(said + [c], t, id, server);
    ClosedLast(said + [c] + [t], r, id, server);
  }

  // An accepted conversation goes on: a fresh call of either kind and its result are
  // accepted, and a result of the other kind is refused.
  lemma ExchangeIsAccepted(
      messages: seq<Message>, server: bool, id: string, name: string, input: string, asServer: bool, resultId: string, answer: Answer)
    requires Structured(messages, false).Ok? && !Called(Since(Tokens(messages, false, |messages|)), Trim(id))
    requires Trim(id) != "" && Trim(name) != "" && Trim(resultId) == Trim(id)
    ensures var history := Structured(messages + [CallTurn(server, id, name, input), ResultTurn(asServer, resultId, answer)], false);
            && (history.Ok? <==> asServer == server)
            && (asServer != server ==> history == Err(InvalidHistory))
  {
    hide Trim, AllFit, Since, Called, CalledAs, Closed, Structured, Tokens, ServerAnswered;
    var (call, result) := (CallTurn(server, id, name, input), ResultTurn(asServer, resultId, answer));
    var all := messages + [call, result];
    var tokens := Tokens(messages, false, |messages|);
    AcceptedIff(messages, false);
    AcceptedIff(all, false);
    ExchangeTokens(messages, call, result);
    var (c, r) := (Said("assistant", false, call.content.blocks[0]), Said("user", false, result.content.blocks[0]));
    assert AnsweredIds(result.content) == {Trim(id)} by {
      assert result.content.blocks[0] in result.content.blocks;
    }
    var t := Turn({Trim(id)});
    ExchangeFits(tokens, c, t, r, Trim(id), server, asServer);
    if asServer != server {
      MisfitAtTheEnd(tokens + [c] + [t], r, Structured(all, false).error);
    }
  }

  lemma MisfitAtTheEnd(tokens: seq<Token>, r: Token, err: HistoryError)
    requires AllFit(tokens) && FailsWith(tokens + [r], err)
    ensures err == ErrorOf(Since(tokens), r)
  {
    hide Since, Fits, ErrorOf;
    var all := tokens + [r];
    assert all[..|tokens|] == tokens && forall i :: 0 <= i < |tokens| ==> all[..i] == tokens[..i] && all[i] == tokens[i];
    var k :| 0 <= k < |all| && FailsAt(all, k, err);
  }
}
