// wire.go: media that tools returned, lifted out of their results into user
// messages of their own.
module ToolResultMediaLift {
  import opened Events
  import opened Strings
  import opened ToolIds
  import opened FullHistories

  function Stripped(p: Part): Part {
    if p.ResultPart? then ResultPart(p.id, p.name, p.answer.(attachments := None)) else p
  }

  function StrippedParts(parts: seq<Part>): seq<Part> {
    seq(|parts|, i requires 0 <= i < |parts| => Stripped(parts[i]))
  }

  function Attachments(p: Part): seq<Attachment> {
    if p.ResultPart? && p.answer.attachments.Some? then p.answer.attachments.value else []
  }

  // The recognised media among attachments, after whatever was lifted before; the
  // first one is introduced by a label naming its tool call.
  function LiftAttachments(lifted: seq<Part>, p: Part, attachments: seq<Attachment>): seq<Part>
    requires p.ResultPart?
  {
    if attachments == [] then lifted
    else
      var (before, a) := (LiftAttachments(lifted, p, attachments[..|attachments| - 1]), attachments[|attachments| - 1]);
      if !a.isMedia then before
      else (if before == [] then [Label(Trim(p.id), Trim(p.name))] else before) + [AttachedPart(a.content)]
  }

  function LiftParts(parts: seq<Part>): seq<Part> {
    if parts == [] then []
    else
      var (before, p) := (LiftParts(parts[..|parts| - 1]), parts[|parts| - 1]);
      if p.ResultPart? then LiftAttachments(before, p, Attachments(p)) else before
  }

  predicate IsTool(m: Native) {
    Trim(m.role) == "tool"
  }

  function LiftMessage(m: Native): seq<Native> {
    if !IsTool(m) then [m]
    else
      [m.(parts := StrippedParts(m.parts))] + if LiftParts(m.parts) == [] then [] else [Native("user", LiftParts(m.parts), "")]
  }

  // agentV1LiftToolResultMedia
  function Lift(messages: seq<Native>): seq<Native> {
    if messages == [] then [] else Lift(messages[..|messages| - 1]) + LiftMessage(messages[|messages| - 1])
  }

  // ---------------------------------------------------------------------
  // Pairing
  // ---------------------------------------------------------------------

  lemma {:induction false} StrippedRefs(parts: seq<Part>)
    ensures CallsOf(StrippedParts(parts)) == CallsOf(parts) && ResultsOf(StrippedParts(parts)) == ResultsOf(parts)
  {
    if parts != [] {
      var n := |parts| - 1;
      StrippedRefs(parts[..n]);
      assert StrippedParts(parts)[..n] == StrippedParts(parts[..n]);
    }
  }

  predicate OnlyMedia(parts: seq<Part>) {
    forall p :: p in parts ==> p.Label? || p.AttachedPart?
  }

  lemma {:induction false} LiftedAttachmentsAreMedia(lifted: seq<Part>, p: Part, attachments: seq<Attachment>)
    requires OnlyMedia(lifted) && p.ResultPart?
    ensures OnlyMedia(LiftAttachments(lifted, p, attachments))
  {
    hide Trim;
    if attachments != [] {
      LiftedAttachmentsAreMedia(lifted, p, attachments[..|attachments| - 1]);
    }
  }

  lemma {:induction false} LiftedPartsAreMedia(parts: seq<Part>)
    ensures OnlyMedia(LiftParts(parts))
  {
    hide LiftAttachments;
    if parts != [] {
      LiftedPartsAreMedia(parts[..|parts| - 1]);
      var p := parts[|parts| - 1];
      if p.ResultPart? {
        LiftedAttachmentsAreMedia(LiftParts(parts[..|parts| - 1]), p, Attachments(p));
      }
    }
  }

  // Lifting neither adds, drops nor reorders calls and results.
  lemma {:induction false} LiftKeepsRefs(messages: seq<Native>)
    ensures Calls(Lift(messages)) == Calls(messages) && Results(Lift(messages)) == Results(messages)
    ensures AnswersEarlier(messages) ==> AnswersEarlier(Lift(messages))
  {
    hide CallsOf, ResultsOf, StrippedParts, LiftParts, IsTool, Calls, Results, AnswersEarlier, PlaceholdersOf,
        Placeholders;
    if messages != [] {
      var (n, m) := (|messages| - 1, messages[|messages| - 1]);
      assert messages == messages[..n] + [m];
      LastMessage(messages[..n], m);
      LiftKeepsRefs(messages[..n]);
      var before := Lift(messages[..n]);
      StrippedRefs(m.parts);
      LiftedPartsAreMedia(m.parts);
      MediaHasNoRefs(LiftParts(m.parts));
      LastMessage(before, if IsTool(m) then m.(parts := StrippedParts(m.parts)) else m);
      if IsTool(m) && LiftParts(m.parts) != [] {
        var first := before + [m.(parts := StrippedParts(m.parts))];
        LastMessage(first, Native("user", LiftParts(m.parts), ""));
        assert first + [Native("user", LiftParts(m.parts), "")] == Lift(messages);
        assert Calls(first) + [] == Calls(first) && Results(first) + [] == Results(first);
      } else {
        assert before + ([if IsTool(m) then m.(parts := StrippedParts(m.parts)) else m] + []) == Lift(messages);
        assert before + [if IsTool(m) then m.(parts := StrippedParts(m.parts)) else m] == Lift(messages);
      }
    }
  }

  lemma MediaHasNoRefs(parts: seq<Part>)
    requires OnlyMedia(parts)
    ensures CallsOf(parts) == [] && ResultsOf(parts) == []
  {
    PlainParts(parts);
  }

  lemma LiftKeepsPairing(messages: seq<Native>)
    requires Paired(messages)
    ensures Paired(Lift(messages))
  {
    hide Lift, DistinctIds;
    LiftKeepsRefs(messages);
  }

  // ---------------------------------------------------------------------
  // Conservation
  // ---------------------------------------------------------------------

  // A message that lifting inserts starts with a label.
  predicate Inserted(m: Native) {
    m.role == "user" && m.parts != [] && m.parts[0].Label?
  }

  function Erased(messages: seq<Native>): seq<Native> {
    if messages == [] then []
    else
      var m := messages[|messages| - 1];
      Erased(messages[..|messages| - 1]) + if Inserted(m) then [] else [m]
  }

  function StrippedMessage(m: Native): Native {
    if IsTool(m) then m.(parts := StrippedParts(m.parts)) else m
  }

  function StrippedMessages(messages: seq<Native>): seq<Native> {
    seq(|messages|, i requires 0 <= i < |messages| => StrippedMessage(messages[i]))
  }

  function MediaOf(attachments: seq<Attachment>): seq<string> {
    if attachments == [] then []
    else
      var a := attachments[|attachments| - 1];
      MediaOf(attachments[..|attachments| - 1]) + if a.isMedia then [a.content] else []
  }

  // The media that tools returned, in order.
  function ReturnedBy(parts: seq<Part>): seq<string> {
    if parts == [] then [] else ReturnedBy(parts[..|parts| - 1]) + MediaOf(Attachments(parts[|parts| - 1]))
  }

  function Returned(messages: seq<Native>): seq<string> {
    if messages == [] then []
    else
      var m := messages[|messages| - 1];
      Returned(messages[..|messages| - 1]) + if IsTool(m) then ReturnedBy(m.parts) else []
  }

  // The media of inserted messages, in order.
  function Contents(parts: seq<Part>): seq<string> {
    if parts == [] then []
    else
      var p := parts[|parts| - 1];
      Contents(parts[..|parts| - 1]) + if p.AttachedPart? then [p.content] else []
  }

  function Shown(messages: seq<Native>): seq<string> {
    if messages == [] then []
    else
      var m := messages[|messages| - 1];
      Shown(messages[..|messages| - 1]) + if Inserted(m) then Contents(m.parts) else []
  }

  lemma ContentsOfLast(parts: seq<Part>, p: Part)
    ensures Contents(parts + [p]) == Contents(parts) + if p.AttachedPart? then [p.content] else []
  {
    assert (parts + [p])[..|parts|] == parts;
  }

  // Lifted parts are empty or start with their label, and hold the media so far.
  predicate Labelled(parts: seq<Part>) {
    parts != [] ==> parts[0].Label?
  }

  lemma {:induction false} AttachmentsAreShown(lifted: seq<Part>, p: Part, attachments: seq<Attachment>)
    requires p.ResultPart? && Labelled(lifted)
    ensures var r := LiftAttachments(lifted, p, attachments);
            Contents(r) == Contents(lifted) + MediaOf(attachments) && Labelled(r)
  {
    hide Trim, Contents;
    if attachments == [] {
      assert Contents(lifted) + [] == Contents(lifted);
    } else {
      var (n, a) := (|attachments| - 1, attachments[|attachments| - 1]);
      AttachmentsAreShown(lifted, p, attachments[..n]);
      var before := LiftAttachments(lifted, p, attachments[..n]);
      if a.isMedia {
        var heading := Label(Trim(p.id), Trim(p.name));
        ContentsOfLast([], heading);
        NoContents();
        assert [] + [heading] == [heading];
        ContentsOfLast(if before == [] then [heading] else before, AttachedPart(a.content));
        assert Contents(lifted) + MediaOf(attachments[..n]) + [a.content] == Contents(lifted) + (MediaOf(attachments[..n]) + [a.content]);
      } else {
        assert MediaOf(attachments[..n]) + [] == MediaOf(attachments[..n]);
      }
    }
  }

  lemma NoContents()
    ensures Contents([]) == []
  {}

  lemma {:induction false} PartsAreShown(parts: seq<Part>)
    ensures Contents(LiftParts(parts)) == ReturnedBy(parts) && Labelled(LiftParts(parts))
  {
    hide LiftAttachments, MediaOf;
    if parts != [] {
      var (n, p) := (|parts| - 1, parts[|parts| - 1]);
      PartsAreShown(parts[..n]);
      if p.ResultPart? {
        AttachmentsAreShown(LiftParts(parts[..n]), p, Attachments(p));
      } else {
        NoAttachments();
        assert ReturnedBy(parts[..n]) + [] == ReturnedBy(parts[..n]);
      }
    }
  }

  lemma NoAttachments()
    ensures MediaOf([]) == []
  {}

  lemma ErasedOfLast(messages: seq<Native>, m: Native)
    ensures Erased(messages + [m]) == Erased(messages) + (if Inserted(m) then [] else [m])
    ensures Shown(messages + [m]) == Shown(messages) + (if Inserted(m) then Contents(m.parts) else [])
  {
    assert (messages + [m])[..|messages|] == messages;
  }

  lemma ToolIsNotInserted(m: Native)
    requires IsTool(m)
    ensures !Inserted(m.(parts := StrippedParts(m.parts)))
  {
    TrimStrips("user");
    assert Trim("user") == "user";
  }

  lemma NotInserted(m: Native)
    requires !Inserted(m)
    ensures !Inserted(StrippedMessage(m))
  {
    hide Trim, Inserted, StrippedParts;
    if IsTool(m) {
      ToolIsNotInserted(m);
    }
  }

  lemma StrippedLast(messages: seq<Native>)
    requires messages != []
    ensures StrippedMessages(messages) == StrippedMessages(messages[..|messages| - 1]) + [StrippedMessage(messages[|messages| - 1])]
  {
    hide StrippedMessage;
  }

  // Erasing the inserted messages gives the messages without their attachments,
  // and the inserted messages show every recognised medium, in order.
  lemma {:induction false} LiftConserves(messages: seq<Native>)
    requires forall m :: m in messages ==> !Inserted(m)
    ensures Erased(Lift(messages)) == StrippedMessages(messages)
    ensures Shown(Lift(messages)) == Returned(messages)
  {
    hide Trim, LiftParts, ReturnedBy, Contents, Inserted, LiftMessage, StrippedMessage, IsTool;
    if messages != [] {
      var (n, m) := (|messages| - 1, messages[|messages| - 1]);
      assert forall x :: x in messages[..n] ==> x in messages;
      LiftConserves(messages[..n]);
      PartsAreShown(m.parts);
      NotInserted(m);
      StrippedLast(messages);
      LiftedLast(m, Lift(messages[..n]), StrippedMessage(m), LiftParts(m.parts), messages);
    }
  }

  lemma LiftedLast(m: Native, before: seq<Native>, stripped: Native, lifted: seq<Part>, messages: seq<Native>)
    requires messages != [] && m == messages[|messages| - 1] && before == Lift(messages[..|messages| - 1])
    requires stripped == StrippedMessage(m) && lifted == LiftParts(m.parts) && !Inserted(stripped)
    requires Labelled(lifted) && Contents(lifted) == ReturnedBy(m.parts)
    requires Shown(before) == Returned(messages[..|messages| - 1])
    ensures Erased(Lift(messages)) == Erased(before) + [stripped]
    ensures Shown(Lift(messages)) == Returned(messages)
  {
    hide Trim, LiftParts, ReturnedBy;
    ErasedOfLast(before, stripped);
    assert Shown(before) + [] == Shown(before);
    if IsTool(m) && lifted != [] {
      var user := Native("user", lifted, "");
      ErasedOfLast(before + [stripped], user);
      assert Lift(messages) == before + [stripped] + [user] by { assert before + ([stripped] + [user]) == before + [stripped] + [user]; }
      assert Erased(before) + [stripped] + [] == Erased(before) + [stripped];
    } else {
      NoContents();
      assert Lift(messages) == before + [stripped] by { assert before + ([stripped] + []) == before + [stripped]; }
      assert Returned(messages[..|messages| - 1]) + [] == Returned(messages[..|messages| - 1]);
    }
  }

  // ---------------------------------------------------------------------
  // Where the media stand
  // ---------------------------------------------------------------------

  predicate ReturnsMedia(p: Part) {
    MediaOf(Attachments(p)) != []
  }

  // The first part that returns media, if any.
  function FirstReturning(parts: seq<Part>): (k: nat)
    ensures k <= |parts| && (forall j :: 0 <= j < k ==> !ReturnsMedia(parts[j])) && (k < |parts| ==> ReturnsMedia(parts[k]))
  {
    if parts == [] then 0
    else
      var n := |parts| - 1;
      var k := FirstReturning(parts[..n]);
      if k < n || ReturnsMedia(parts[n]) then k else n + 1
  }

  function LabelOf(p: Part): Part
    requires ReturnsMedia(p)
  {
    Label(Trim(p.id), Trim(p.name))
  }

  function AsParts(media: seq<string>): seq<Part> {
    seq(|media|, i requires 0 <= i < |media| => AttachedPart(media[i]))
  }

  // The user message for the media of a tool message: a label that names the call
  // of the first result with media, and all media in order.
  function ShowingMessage(m: Native): Native
    requires FirstReturning(m.parts) < |m.parts|
  {
    Native("user", [LabelOf(m.parts[FirstReturning(m.parts)])] + AsParts(ReturnedBy(m.parts)), "")
  }

  lemma MoreAsParts(a: seq<string>, b: seq<string>)
    ensures AsParts(a + b) == AsParts(a) + AsParts(b)
  {}

  lemma {:induction false} AttachmentsInOrder(lifted: seq<Part>, p: Part, attachments: seq<Attachment>)
    requires p.ResultPart?
    ensures LiftAttachments(lifted, p, attachments) ==
              if MediaOf(attachments) == [] then lifted
              else (if lifted == [] then [Label(Trim(p.id), Trim(p.name))] else lifted) + AsParts(MediaOf(attachments))
  {
    hide Trim;
    if attachments != [] {
      var (n, a) := (|attachments| - 1, attachments[|attachments| - 1]);
      AttachmentsInOrder(lifted, p, attachments[..n]);
      var heading := if lifted == [] then [Label(Trim(p.id), Trim(p.name))] else lifted;
      if a.isMedia {
        MoreAsParts(MediaOf(attachments[..n]), [a.content]);
        assert AsParts([a.content]) == [AttachedPart(a.content)];
        assert heading + AsParts(MediaOf(attachments[..n])) + [AttachedPart(a.content)]
            == heading + (AsParts(MediaOf(attachments[..n])) + [AttachedPart(a.content)]);
        if MediaOf(attachments[..n]) == [] {
          assert heading + AsParts([a.content]) == heading + [AttachedPart(a.content)];
        }
      }
    }
  }

  lemma {:induction false} LiftedInOrder(parts: seq<Part>)
    ensures var k := FirstReturning(parts);
            && (k == |parts| <==> ReturnedBy(parts) == [])
            && LiftParts(parts) == if k == |parts| then [] else [LabelOf(parts[k])] + AsParts(ReturnedBy(parts))
  {
    hide Trim, LiftAttachments, MediaOf;
    if parts != [] {
      var (n, p) := (|parts| - 1, parts[|parts| - 1]);
      LiftedInOrder(parts[..n]);
      MoreAsParts(ReturnedBy(parts[..n]), MediaOf(Attachments(p)));
      if p.ResultPart? {
        AttachmentsInOrder(LiftParts(parts[..n]), p, Attachments(p));
      } else {
        NoAttachments();
      }
    }
  }

  lemma {:induction false} LiftOfPrefix(messages: seq<Native>, n: nat)
    requires n <= |messages|
    ensures Lift(messages[..n]) <= Lift(messages)
  {
    hide LiftMessage;
    if n < |messages| {
      LiftOfPrefix(messages[..|messages| - 1], n);
      assert messages[..|messages| - 1][..n] == messages[..n];
    } else {
      assert messages[..n] == messages;
    }
  }

  // Every message is in its place without attachments, and directly after a tool
  // message that returned media stands the message that shows them.
  lemma MediaFollowTheirTool(messages: seq<Native>, i: nat)
    requires i < |messages|
    ensures var (m, out, at) := (messages[i], Lift(messages), |Lift(messages[..i])|);
            var shows := IsTool(m) && ReturnedBy(m.parts) != [];
            && |Lift(messages[..i + 1])| == at + (if shows then 2 else 1) <= |out|
            && out[at] == StrippedMessage(m)
            && (shows ==> FirstReturning(m.parts) < |m.parts| && out[at + 1] == ShowingMessage(m))
  {
    hide LiftParts, Trim, ReturnedBy, StrippedParts;
    var m := messages[i];
    assert messages[..i + 1][..i] == messages[..i];
    LiftOfPrefix(messages, i + 1);
    LiftedInOrder(m.parts);
    assert Lift(messages[..i + 1]) == Lift(messages[..i]) + LiftMessage(m);
  }

  // ---------------------------------------------------------------------
  // Rebuilt histories
  // ---------------------------------------------------------------------

  // A result has a message of its own, and nothing is labelled.
  predicate Separate(m: Native) {
    forall p :: p in m.parts ==> !p.Label? && (p.ResultPart? ==> m.parts == [p])
  }

  predicate AllSeparate(out: seq<Native>) {
    forall m :: m in out ==> Separate(m)
  }

  predicate OpenParts(parts: seq<Part>) {
    forall p :: p in parts ==> !p.Label? && !p.ResultPart?
  }

  predicate SeparateState(st: State) {
    AllSeparate(st.out) && OpenParts(st.parts)
  }

  lemma AppendStaysSeparate(st: State, role: string)
    requires SeparateState(st)
    ensures AllSeparate(AppendMessage(st.out, role, st.parts, ""))
  {}

  lemma {:induction false} FlushStaysSeparate(st: State, ids: seq<string>, answeredNow: set<string>)
    requires SeparateState(st)
    ensures SeparateState(Flush(st, ids, answeredNow))
  {
    if ids != [] {
      FlushStaysSeparate(st, ids[..|ids| - 1], answeredNow);
    }
  }

  lemma BlockStaysSeparate(st: State, role: string, omit: bool, block: Block)
    requires SeparateState(st) && AddBlock(st, role, omit, block).Ok?
    ensures SeparateState(AddBlock(st, role, omit, block).value)
  {
    hide Trim, SummaryText;
    if block.kind.ResultBlock? {
      AppendStaysSeparate(st, role);
    }
  }

  lemma {:induction false} BlocksStaySeparate(st: State, role: string, omit: bool, blocks: seq<Block>)
    requires SeparateState(st) && AddBlocks(st, role, omit, blocks).Ok?
    ensures SeparateState(AddBlocks(st, role, omit, blocks).value)
  {
    hide AddBlock, SeparateState;
    if blocks != [] {
      BlocksStaySeparate(st, role, omit, blocks[..|blocks| - 1]);
      BlockStaysSeparate(AddBlocks(st, role, omit, blocks[..|blocks| - 1]).value, role, omit, blocks[|blocks| - 1]);
    }
  }

  lemma MessageStaysSeparate(st: State, m: Message, omit: bool)
    requires SeparateState(st) && AddMessage(st, m, omit).Ok?
    ensures SeparateState(AddMessage(st, m, omit).value)
  {
    hide Trim, AddBlocks, Flush, AnsweredIds, SortedSet;
    var role := Trim(m.role);
    FlushStaysSeparate(st, SortedSet(st.calls), AnsweredIds(m.content));
    var flushed := if role == "user" then FlushAll(st, AnsweredIds(m.content)) else st;
    if m.content.Blocks? {
      BlocksStaySeparate(flushed, role, omit, m.content.blocks);
      AppendStaysSeparate(AddBlocks(flushed, role, omit, m.content.blocks).value, role);
    }
  }

  lemma {:induction false} MessagesStaySeparate(messages: seq<Message>, omitLastText: bool, n: nat)
    requires n <= |messages| && AddMessages(messages, omitLastText, n).Ok?
    ensures SeparateState(AddMessages(messages, omitLastText, n).value)
  {
    hide AddMessage;
    if n > 0 {
      MessagesStaySeparate(messages, omitLastText, n - 1);
      MessageStaysSeparate(AddMessages(messages, omitLastText, n - 1).value, messages[n - 1], omitLastText && n == |messages|);
    }
  }

  lemma RebuiltIsSeparate(messages: seq<Message>, omitLastText: bool)
    requires Structured(messages, omitLastText).Ok?
    ensures AllSeparate(Structured(messages, omitLastText).value)
  {
    hide AddMessages, Flush, SortedSet, Separate;
    MessagesStaySeparate(messages, omitLastText, |messages|);
    var st := AddMessages(messages, omitLastText, |messages|).value;
    FlushStaysSeparate(st, SortedSet(st.calls), {});
  }

  // A rebuilt history, lifted: still paired; without the inserted messages it is
  // the rebuilt history without attachments; the inserted messages show all media
  // in order, and each stands directly after the one result that returned its
  // media, labelled with that result's call.
  lemma LiftedHistory(messages: seq<Message>, omitLastText: bool)
    requires Structured(messages, omitLastText).Ok?
    ensures var history := Structured(messages, omitLastText).value;
            && Paired(Lift(history)) && Erased(Lift(history)) == StrippedMessages(history) && Shown(Lift(history)) == Returned(history)
            && forall i :: 0 <= i < |history| && IsTool(history[i]) && ReturnedBy(history[i].parts) != [] ==>
                 var at := |Lift(history[..i])|;
                 && |history[i].parts| == 1 && ReturnsMedia(history[i].parts[0]) && at + 1 < |Lift(history)|
                 && Lift(history)[at + 1]
                    == Native("user", [LabelOf(history[i].parts[0])] + AsParts(ReturnedBy(history[i].parts)), "")
  {
    hide Structured, Lift, Erased, Shown, Returned, IsTool, ReturnedBy, StrippedMessages, StrippedMessage, LabelOf;
    HistoryIsPaired(messages, omitLastText);
    RebuiltIsSeparate(messages, omitLastText);
    var history := Structured(messages, omitLastText).value;
    LiftKeepsPairing(history);
    LiftConserves(history);
    forall i | 0 <= i < |history| && IsTool(history[i]) && ReturnedBy(history[i].parts) != []
      ensures |history[i].parts| == 1 && ReturnsMedia(history[i].parts[0]) && |Lift(history[..i])| + 1 < |Lift(history)|
      ensures Lift(history)[|Lift(history[..i])| + 1]
           == Native("user", [LabelOf(history[i].parts[0])] + AsParts(ReturnedBy(history[i].parts)), "")
    {
      MediaFollowTheirTool(history, i);
      assert Separate(history[i]);
      OnlyResult(history[i]);
    }
  }

  lemma OnlyResult(m: Native)
    requires Separate(m) && FirstReturning(m.parts) < |m.parts|
    ensures |m.parts| == 1 && FirstReturning(m.parts) == 0
  {
    var p := m.parts[FirstReturning(m.parts)];
    assert p in m.parts && p.ResultPart?;
  }

  // ---------------------------------------------------------------------
  // The loops
  // ---------------------------------------------------------------------

  method LiftFrom(parts: seq<Part>) returns (rewritten: seq<Part>, lifted: seq<Part>)
    ensures rewritten == StrippedParts(parts) && lifted == LiftParts(parts)
  {
    hide Trim;
    rewritten, lifted := [], [];
    for i := 0 to |parts|
      invariant rewritten == StrippedParts(parts[..i]) && lifted == LiftParts(parts[..i])
    {
      assert parts[..i + 1][..i] == parts[..i];
      var part := parts[i];
      if part.ResultPart? && part.answer.attachments.Some? {
        var experimental := part.answer.attachments.value;
        ghost var before := lifted;
        for j := 0 to |experimental|
          invariant lifted == LiftAttachments(before, part, experimental[..j])
        {
          assert experimental[..j + 1][..j] == experimental[..j];
          if experimental[j].isMedia {
            if lifted == [] {
              lifted := [Label(Trim(part.id), Trim(part.name))];
            }
            lifted := lifted + [AttachedPart(experimental[j].content)];
          }
        }
        assert experimental[..|experimental|] == experimental;
      }
      rewritten := rewritten + [Stripped(part)];
    }
    assert parts[..|parts|] == parts;
  }

  method LiftToolResultMedia(messages: seq<Native>) returns (out: seq<Native>)
    ensures out == Lift(messages)
  {
    hide Trim, StrippedParts, LiftParts;
    out := [];
    for n := 0 to |messages|
      invariant out == Lift(messages[..n])
    {
      assert messages[..n + 1][..n] == messages[..n];
      var message := messages[n];
      if Trim(message.role) != "tool" {
        out := out + [message];
      } else {
        var rewritten, lifted := LiftFrom(message.parts);
        ghost var before := out;
        out := out + [message.(parts := rewritten)];
        if lifted != [] {
          out := out + [Native("user", lifted, "")];
        }
        assert out == before + LiftMessage(message);
      }
    }
    assert messages[..|messages|] == messages;
  }
}
