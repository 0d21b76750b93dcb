// completed_events.go: the online compactor behind completed snapshots, and the
// persisted form of completed_state.go.
module EventSnapshots {
  import opened Events
  import opened Usages
  import opened Json

  const MAX_COMPLETED_EVENT_BYTES: nat := 0x100_0000

  // ---------------------------------------------------------------------
  // What combines
  // ---------------------------------------------------------------------

  // The shape of a mergeable delta, before its checkpoint and blobs are looked at.
  predicate TextShape(e: Event) {
    && (e.kind == Text || e.kind == Thinking) && e.text != ""
    && e.tokens == 0 && e.usage.None? && e.toolCall.None? && e.toolResult.None? && e.search.None?
    && (e.kind == Thinking || e.progress == 0)
  }

  predicate SnapshotText(e: Event) {
    TextShape(e) && !CarriesState(e)
  }

  predicate MergesText(a: Event, b: Event) {
    a.kind == b.kind && SnapshotText(a) && SnapshotText(b)
  }

  function MergedProgress(a: Event, b: Event): int {
    if b.kind == Thinking then Max(1, a.progress) + Max(1, b.progress) else a.progress
  }

  predicate MergesUsage(a: Event, b: Event) {
    && a.kind == UsageDelta && b.kind == UsageDelta
    && 0 <= a.tokens && 0 <= b.tokens && b.tokens <= MAX_INT64 - a.tokens
    && (|| (a.usage.None? && b.usage.None?)
        || (&& a.usage.Some? && b.usage.Some?
            && a.usage.value.kind == TokenDeltaUsage && b.usage.value.kind == TokenDeltaUsage
            && var x, y := a.usage.value.tokenDelta, b.usage.value.tokenDelta;
            && x.present && y.present && !x.invalid && !y.invalid
            && 0 <= x.value && 0 <= y.value && y.value <= MAX_INT64 - x.value
            && a.usage.value.(tokenDelta := NO_COUNT) == b.usage.value.(tokenDelta := NO_COUNT)))
  }

  function MergeUsage(a: Event, b: Event): Event
    requires MergesUsage(a, b)
  {
    var merged := CloneEvent(a).(tokens := a.tokens + b.tokens);
    if a.usage.None? then merged
    else
      var x, y := a.usage.value.tokenDelta, b.usage.value.tokenDelta;
      merged.(usage := Some(a.usage.value.(tokenDelta := x.(value := x.value + y.value))))
  }

  predicate Mergeable(a: Event, b: Event) {
    MergesText(a, b) || MergesUsage(a, b)
  }

  function Merge(a: Event, b: Event): Event
    requires Mergeable(a, b)
  {
    if MergesText(a, b) then a.(text := a.text + b.text, progress := MergedProgress(a, b))
    else MergeUsage(a, b)
  }

  // Compaction as a reader would describe it: an event joins its neighbour when
  // the two merge, and is retained without checkpoint and blobs otherwise.
  function Append(events: seq<Event>, e: Event): seq<Event> {
    var n := |events| - 1;
    if events != [] && Mergeable(events[n], e) then events[..n] + [Merge(events[n], e)]
    else events + [CloneEvent(e)]
  }

  function Compact(events: seq<Event>): seq<Event> {
    if events == [] then [] else Append(Compact(events[..|events| - 1]), events[|events| - 1])
  }

  // ---------------------------------------------------------------------
  // The snapshot as the source keeps it
  // ---------------------------------------------------------------------

  // `builder` accumulates the text of the last retained delta.
  datatype Snap = Snap(events: seq<Event>, bytes: int, lastSize: int, builder: string)

  const EMPTY_SNAP := Snap([], 0, 0, "")

  function Opened(s: Snap): Snap {
    if s.bytes == 0 then s.(bytes := 2) else s
  }

  // What the text branch, the usage branch and the new-event branch of append
  // make of the fields when the byte limit allows it.
  function JoinText(s: Snap, e: Event): Snap
    requires s.events != [] && e.text != ""
  {
    var n := |s.events| - 1;
    var last := s.events[n];
    var progress := MergedProgress(last, e);
    var delta := Size(Quote(e.text)) - 2
                 + if e.kind == Thinking then ProgressFieldSize(progress) - ProgressFieldSize(last.progress) else 0;
    var text := s.builder + e.text;
    Snap(s.events[..n] + [last.(text := text, progress := progress)], s.bytes + delta, s.lastSize + delta, text)
  }

  function JoinUsage(s: Snap, e: Event): Snap
    requires s.events != [] && MergesUsage(s.events[|s.events| - 1], e)
  {
    var n := |s.events| - 1;
    var merged := MergeUsage(s.events[n], e);
    Snap(s.events[..n] + [merged], s.bytes + EventSize(merged) - s.lastSize, EventSize(merged), s.builder)
  }

  function Retain(s: Snap, e: Event): Snap {
    Snap(s.events + [CloneEvent(e)], s.bytes + EventSize(e) + (if s.events == [] then 0 else 1), EventSize(e),
         if SnapshotText(e) then e.text else "")
  }

  function Appended(s: Snap, e: Event): Snap {
    var s := Opened(s);
    var n := |s.events| - 1;
    if s.events != [] && MergesText(s.events[n], e) then JoinText(s, e)
    else if s.events != [] && MergesUsage(s.events[n], e) then JoinUsage(s, e)
    else Retain(s, e)
  }

  function Step(s: Snap, e: Event): Option<Snap> {
    var t := Appended(s, e);
    if t.bytes > MAX_COMPLETED_EVENT_BYTES then None else Some(t)
  }

  function Fill(events: seq<Event>): Option<Snap> {
    if events == [] then Some(EMPTY_SNAP)
    else
      var before := Fill(events[..|events| - 1]);
      if before.None? then None else Step(before.value, events[|events| - 1])
  }

  // eventSnapshot: the fields append and grow update.  A rejected append leaves
  // the retained events alone.
  class EventSnapshot {
    var events: seq<Event>
    var bytes: int
    var lastSize: int
    var text: string

    function View(): Snap
      reads this
    {
      Snap(events, bytes, lastSize, text)
    }

    constructor ()
      ensures View() == EMPTY_SNAP
    {
      events, bytes, lastSize, text := [], 0, 0, "";
    }

    method GrowBy(delta: int) returns (ok: bool)
      modifies this`bytes
      ensures ok <==> old(bytes) + delta <= MAX_COMPLETED_EVENT_BYTES
      ensures bytes == if ok then old(bytes) + delta else old(bytes)
    {
      if delta > MAX_COMPLETED_EVENT_BYTES - bytes {
        return false;
      }
      bytes := bytes + delta;
      return true;
    }

    method AppendText(e: Event) returns (ok: bool)
      requires events != [] && e.text != ""
      modifies this
      ensures ok <==> JoinText(old(View()), e).bytes <= MAX_COMPLETED_EVENT_BYTES
      ensures View() == if ok then JoinText(old(View()), e) else old(View())
    {
      hide EventSize, Size, Escape, Quote, ProgressFieldSize, Max;
      var n := |events| - 1;
      var kept, last := events[..n], events[n];
      var encoded: int := Size(Quote(e.text));
      var delta := encoded - 2;
      var progress := last.progress;
      if e.kind == Thinking {
        progress := Max(1, progress) + Max(1, e.progress);
        delta := delta + (ProgressFieldSize(progress) - ProgressFieldSize(last.progress));
      }
      assert progress == MergedProgress(last, e);
      ok := GrowBy(delta);
      if ok {
        text := text + e.text;
        events := kept + [last.(text := text, progress := progress)];
        lastSize := lastSize + delta;
      }
    }

    method AppendUsage(e: Event) returns (ok: bool)
      requires events != [] && MergesUsage(events[|events| - 1], e)
      modifies this
      ensures ok <==> JoinUsage(old(View()), e).bytes <= MAX_COMPLETED_EVENT_BYTES
      ensures View() == if ok then JoinUsage(old(View()), e) else old(View())
    {
      hide EventSize, Size, Escape, Quote;
      var n := |events| - 1;
      var merged := MergeUsage(events[n], e);
      var size := EventSize(merged);
      ok := GrowBy(size - lastSize);
      if ok {
        events, lastSize := events[..n] + [merged], size;
      }
    }

    method AppendEvent(e: Event) returns (ok: bool)
      modifies this
      ensures ok <==> Step(old(View()), e).Some?
      ensures View() == if ok then Appended(old(View()), e) else Opened(old(View()))
    {
      hide EventSize, Size, Escape, Quote, JoinText, JoinUsage, CarriesState, MergesUsage;
      if bytes == 0 {
        bytes := 2;
      }
      if |events| > 0 {
        var last := events[|events| - 1];
        if last.kind == e.kind && SnapshotText(last) && SnapshotText(e) {
          ok := AppendText(e);
          return;
        }
        if MergesUsage(last, e) {
          ok := AppendUsage(e);
          return;
        }
      }
      var size := EventSize(e);
      var delta := size;
      if |events| > 0 {
        delta := delta + 1;
      }
      ok := GrowBy(delta);
      if ok {
        events, lastSize := events + [CloneEvent(e)], size;
        text := "";
        if SnapshotText(e) {
          text := text + e.text;
        }
      }
    }
  }

  // ---------------------------------------------------------------------
  // Byte accounting
  // ---------------------------------------------------------------------

  // A text delta that travelled with a checkpoint or blobs is retained without
  // them, and the next delta then overwrites its text.
  predicate Loses(a: Event, b: Event) {
    TextShape(a) && CarriesState(a) && SnapshotText(b) && a.kind == b.kind
  }

  ghost predicate Lossless(events: seq<Event>) {
    forall i {:trigger events[i]} :: 0 < i < |events| ==> !Loses(events[i - 1], events[i])
  }

  function LastLoss(events: seq<Event>): string {
    var n := |events| - 1;
    if n >= 1 && Loses(events[n - 1], events[n]) then events[n - 1].text else ""
  }

  function Lost(events: seq<Event>): string {
    if events == [] then "" else Lost(events[..|events| - 1]) + LastLoss(events)
  }

  function TextOf(e: Event): string {
    if SnapshotText(e) then e.text else ""
  }

  // The counter equals the size of the encoded array plus the encoded size of
  // whatever text was lost; `original` is what was appended so far.
  ghost predicate BytesMatch(s: Snap, original: seq<Event>) {
    s.bytes == if original == [] then 0 else ArraySize(s.events) + Size(Escape(Lost(original)))
  }

  // The text builder holds the last retained delta, unless that delta came with
  // a checkpoint or blobs.
  predicate BuilderMatches(s: Snap, original: seq<Event>) {
    && (s.events == [] <==> original == [])
    && (original != [] ==>
          var last, given := s.events[|s.events| - 1], original[|original| - 1];
          if TextShape(given) && CarriesState(given) then last == CloneEvent(given) && s.builder == ""
          else s.builder == TextOf(last))
  }

  ghost predicate LastSizeMatches(s: Snap, original: seq<Event>) {
    original != [] && s.events != [] ==>
      var last := s.events[|s.events| - 1];
      && (last.kind == UsageDelta || Lossless(original) ==> s.lastSize == EventSize(last))
  }

  predicate Stateless(events: seq<Event>) {
    forall e :: e in events ==> !CarriesState(e)
  }

  ghost predicate Accounts(s: Snap, original: seq<Event>) {
    BuilderMatches(s, original) && Stateless(s.events) && BytesMatch(s, original) && LastSizeMatches(s, original)
  }

  lemma TextFieldSizeIsExact(e: Event)
    requires e.text != ""
    ensures TextFieldSize(e) == Size(",\"text\":") + 2 + Size(Escape(e.text))
  {
    PunctuationSizes();
    SizeOf3("\"", Escape(e.text), "\"");
    SizeOfConcatenation(",\"text\":", Quote(e.text));
  }

  // Replacing the text and the progress counter changes the size by theirs only.
  lemma RewrittenSize(a: Event, text: string, progress: int)
    requires a.text != "" && text != ""
    ensures EventSize(a.(text := text, progress := progress)) ==
            EventSize(a) - Size(Escape(a.text)) + Size(Escape(text)) + ProgressFieldSize(progress) - ProgressFieldSize(a.progress)
  {
    hide EventSize, Size, Escape, TextFieldSize, ProgressFieldSize, EventJson;
    var b := a.(text := text, progress := progress);
    EventSizeParts(a);
    EventSizeParts(b);
    ProgressFieldSizeIsExact(progress);
    ProgressFieldSizeIsExact(a.progress);
    TextFieldSizeIsExact(a);
    TextFieldSizeIsExact(b);
  }

  lemma ReplacedLastSize(events: seq<Event>, last: Event)
    requires events != []
    ensures var n := |events| - 1;
            ArraySize(events[..n] + [last]) == ArraySize(events) - EventSize(events[n]) + EventSize(last)
  {
    var n := |events| - 1;
    assert events == events[..n] + [events[n]];
    ArraySizeOfLast(events[..n], events[n]);
    ArraySizeOfLast(events[..n], last);
  }

  lemma QuoteSize(s: string)
    ensures Size(Quote(s)) - 2 == Size(Escape(s))
  {
    PunctuationSizes();
    SizeOf3("\"", Escape(s), "\"");
  }

  lemma EmptySizes()
    ensures Escape("") == "" && Size("") == 0
  {}

  lemma LostGrows(original: seq<Event>, e: Event)
    ensures Lost(original + [e]) == Lost(original) + LastLoss(original + [e])
    ensures Size(Escape(Lost(original + [e]))) == Size(Escape(Lost(original))) + Size(Escape(LastLoss(original + [e])))
  {
    hide EscapeChar, Loses, Utf8Size;
    var all := original + [e];
    assert all[..|all| - 1] == original;
    EscapeOfConcatenation(Lost(original), LastLoss(all));
    SizeOfConcatenation(Escape(Lost(original)), Escape(LastLoss(all)));
  }

  lemma LosslessPrefix(original: seq<Event>, e: Event)
    ensures Lossless(original + [e]) <==> Lossless(original) && (original == [] || !Loses(original[|original| - 1], e))
  {
    hide Loses;
    var all := original + [e];
    if Lossless(all) {
      forall i | 0 < i < |original|
        ensures !Loses(original[i - 1], original[i])
      {
        assert all[i] == original[i] && all[i - 1] == original[i - 1];
      }
      if original != [] {
        assert all[|original|] == e && all[|original| - 1] == original[|original| - 1];
      }
    }
  }

  lemma JoinTextMatches(s: Snap, original: seq<Event>, e: Event)
    requires BuilderMatches(s, original) && Stateless(s.events) && original != []
    requires MergesText(s.events[|s.events| - 1], e)
    ensures var n := |s.events| - 1;
            var last, t, lost := s.events[n], JoinText(s, e), LastLoss(original + [e]);
            && BuilderMatches(t, original + [e]) && Stateless(t.events)
            && t.events == s.events[..n] + [last.(text := t.builder, progress := MergedProgress(last, e))]
            && lost == (if Loses(original[|original| - 1], e) then last.text else "")
            && t.builder == (if lost == last.text then e.text else last.text + e.text)
            && last.text != "" && t.builder != ""
            && last.kind != UsageDelta
  {
    hide Size, Quote, ProgressFieldSize;
  }

  // Size of the rewritten text once the lost part is counted back in.
  lemma RegainedSize(last: string, more: string, lost: string, builder: string)
    requires (lost == last && builder == more) || (lost == "" && builder == last + more)
    ensures Size(Escape(builder)) + Size(Escape(lost)) == Size(Escape(last)) + Size(Escape(more))
  {
    hide Escape, Size;
    EmptySizes();
    EscapeOfConcatenation(last, more);
    SizeOfConcatenation(Escape(last), Escape(more));
  }

  lemma JoinTextSizes(s: Snap, e: Event, t: Snap, lost: string)
    requires s.events != [] && MergesText(s.events[|s.events| - 1], e) && JoinText(s, e) == t
    requires var last := s.events[|s.events| - 1];
             (lost == last.text && t.builder == e.text) || (lost == "" && t.builder == last.text + e.text)
    requires s.events[|s.events| - 1].text != "" && t.builder != ""
    ensures t.bytes - s.bytes == ArraySize(t.events) - ArraySize(s.events) + Size(Escape(lost))
    ensures lost == "" ==> t.lastSize - s.lastSize == EventSize(t.events[|t.events| - 1]) - EventSize(s.events[|s.events| - 1])
  {
    hide EventSize, ArraySize, Size, Escape, Quote, ProgressFieldSize, MergesText;
    var n := |s.events| - 1;
    var last := s.events[n];
    QuoteSize(e.text);
    ReplacedLastSize(s.events, t.events[n]);
    RewrittenSize(last, t.builder, t.events[n].progress);
    RegainedSize(last.text, e.text, lost, t.builder);
    EmptySizes();
  }

  lemma JoinTextCounts(s: Snap, original: seq<Event>, e: Event)
    requires Accounts(s, original) && original != []
    requires s.events != [] && e.text != "" && MergesText(s.events[|s.events| - 1], e)
    ensures Accounts(JoinText(s, e), original + [e])
  {
    hide EventSize, ArraySize, Size, Escape, Loses, Lossless, Lost, LastLoss, MergesText, JoinText, BuilderMatches,
        Stateless;
    var t := JoinText(s, e);
    JoinTextMatches(s, original, e);
    JoinTextSizes(s, e, t, LastLoss(original + [e]));
    LostGrows(original, e);
    LosslessPrefix(original, e);
  }

  lemma JoinUsageMatches(s: Snap, original: seq<Event>, e: Event)
    requires BuilderMatches(s, original) && Stateless(s.events) && original != []
    requires MergesUsage(s.events[|s.events| - 1], e)
    ensures var t := JoinUsage(s, e);
            BuilderMatches(t, original + [e]) && Stateless(t.events) && LastLoss(original + [e]) == ""
  {
    hide EventSize;
  }

  lemma JoinUsageCounts(s: Snap, original: seq<Event>, e: Event)
    requires Accounts(s, original) && original != []
    requires s.events != [] && MergesUsage(s.events[|s.events| - 1], e)
    ensures Accounts(JoinUsage(s, e), original + [e])
  {
    hide EventSize, ArraySize, Size, Escape, Loses, Lossless, Lost, LastLoss, BuilderMatches, Stateless;
    var n := |s.events| - 1;
    var t := JoinUsage(s, e);
    JoinUsageMatches(s, original, e);
    assert s.events[n].kind == UsageDelta;
    ReplacedLastSize(s.events, t.events[n]);
    LostGrows(original, e);
    EmptySizes();
  }

  lemma ArraysHaveBrackets(events: seq<Event>)
    ensures ArraySize(events) >= 2
  {
    SizeOf3("[", ItemsJson(events), "]");
    PunctuationSizes();
  }

  lemma ClonedSize(e: Event)
    ensures EventSize(CloneEvent(e)) == EventSize(e)
  {
    hide UsageJson, ToolCallJson, ToolResultJson, SearchJson, Size, StringField, IntField;
    assert TailJson(CloneEvent(e)) == TailJson(e);
  }

  lemma RetainMatches(s: Snap, original: seq<Event>, e: Event)
    requires BuilderMatches(s, original) && Stateless(s.events)
    requires s.events != [] ==> !Mergeable(s.events[|s.events| - 1], e)
    ensures var t := Retain(s, e);
            BuilderMatches(t, original + [e]) && Stateless(t.events) && LastLoss(original + [e]) == ""
  {
    hide EventSize, MergesUsage;
  }

  lemma RetainCounts(s: Snap, original: seq<Event>, e: Event)
    requires Accounts(s, original)
    requires s.events != [] ==> !Mergeable(s.events[|s.events| - 1], e)
    ensures Accounts(Retain(Opened(s), e), original + [e])
  {
    hide EventSize, ArraySize, Size, Escape, Loses, Lossless, LastLoss, Stateless, Mergeable;
    ArraysHaveBrackets(s.events);
    RetainMatches(Opened(s), original, e);
    hide BuilderMatches;
    LostGrows(original, e);
    EmptySizes();
    EmptyArraySize();
    ClonedSize(e);
    ArraySizeOfLast(s.events, CloneEvent(e));
  }

  lemma AppendCounts(s: Snap, original: seq<Event>, e: Event)
    requires Accounts(s, original)
    ensures Accounts(Appended(s, e), original + [e])
  {
    hide ArraySize, Size, Escape, EventSize, Lost, LastLoss, Loses, Lossless, JoinText, JoinUsage, Retain;
    var n := |s.events| - 1;
    ArraysHaveBrackets(s.events);
    assert original != [] ==> Opened(s) == s;
    if s.events != [] && MergesText(s.events[n], e) {
      JoinTextCounts(s, original, e);
    } else if s.events != [] && MergesUsage(s.events[n], e) {
      JoinUsageCounts(s, original, e);
    } else {
      RetainCounts(s, original, e);
    }
  }

  // The retained events, as the compactor keeps them.
  lemma AppendedEvents(s: Snap, original: seq<Event>, e: Event)
    requires Accounts(s, original)
    ensures original != [] && Loses(original[|original| - 1], e) ==>
              var n := |s.events| - 1;
              && s.events[n] == CloneEvent(original[|original| - 1])
              && Appended(s, e).events == s.events[..n] + [s.events[n].(text := e.text, progress := MergedProgress(s.events[n], e))]
    ensures !(original != [] && Loses(original[|original| - 1], e)) ==> Appended(s, e).events == Append(s.events, e)
  {
    hide ArraySize, Size, Escape, EventSize, Lost, LastLoss, Lossless, ProgressFieldSize, Quote;
    if original != [] && Loses(original[|original| - 1], e) {
      assert s.builder + e.text == e.text;
    }
  }

  lemma {:induction false} FillCounts(events: seq<Event>)
    requires Fill(events).Some?
    ensures Accounts(Fill(events).value, events)
    ensures Fill(events).value.bytes <= MAX_COMPLETED_EVENT_BYTES
    ensures Lossless(events) ==> Fill(events).value.events == Compact(events)
  {
    hide ArraySize, Size, Escape, EventSize, Appended, Loses, LastLoss, Append;
    if events == [] {
      EmptySizes();
    } else {
      var n := |events| - 1;
      var rest, last := events[..n], events[n];
      assert events == rest + [last];
      FillCounts(rest);
      var s := Fill(rest).value;
      AppendCounts(s, rest, last);
      AppendedEvents(s, rest, last);
      LosslessPrefix(rest, last);
    }
  }

  // ---------------------------------------------------------------------
  // The usage facts survive
  // ---------------------------------------------------------------------

  lemma ObserveMergedText(f: Facts, a: Event, b: Event)
    requires MergesText(a, b)
    ensures Observe(f, Merge(a, b)) == Observe(Observe(f, a), b)
  {
    hide ObserveTokenDelta, AddTurns, CarriesState;
    assert f.visibleOutput + (a.text + b.text) == f.visibleOutput + a.text + b.text;
  }

  lemma ModuloIgnoresTurns(y: int, turns: int)
    ensures (y + 0x1_0000_0000_0000_0000 * turns) % 0x1_0000_0000_0000_0000 == y % 0x1_0000_0000_0000_0000
  {}

  lemma WrapAssociates(x: int, a: int, b: int)
    ensures Wrap64(Wrap64(x + a) + b) == Wrap64(x + (a + b))
  {
    var turns := (x + a) / 0x1_0000_0000_0000_0000;
    ModuloIgnoresTurns(x + (a + b), -turns);
    ModuloIgnoresTurns(x + (a + b), -turns - 1);
    assert (x + a) % 0x1_0000_0000_0000_0000 == x + a - 0x1_0000_0000_0000_0000 * turns;
  }

  lemma ObserveMergedUsage(f: Facts, a: Event, b: Event)
    requires MergesUsage(a, b)
    ensures Observe(f, MergeUsage(a, b)) == Observe(Observe(f, a), b)
  {
    hide Wrap64, AddTurns, CarriesState;
    WrapAssociates(f.tokenDelta, DeltaOf(a).value, DeltaOf(b).value);
    assert DeltaOf(MergeUsage(a, b)).value == DeltaOf(a).value + DeltaOf(b).value;
  }

  lemma ObserveMerged(f: Facts, a: Event, b: Event)
    requires Mergeable(a, b)
    ensures Observe(f, Merge(a, b)) == Observe(Observe(f, a), b)
  {
    hide Observe, MergesText, MergesUsage;
    if MergesText(a, b) {
      ObserveMergedText(f, a, b);
    } else {
      ObserveMergedUsage(f, a, b);
    }
  }

  lemma {:induction false} AppendKeepsFacts(f: Facts, events: seq<Event>, e: Event)
    ensures FoldFacts(f, Append(events, e)) == Observe(FoldFacts(f, events), e)
  {
    hide Observe, Mergeable, Merge;
    var n := |events| - 1;
    if events != [] && Mergeable(events[n], e) {
      assert (events[..n] + [Merge(events[n], e)])[..n] == events[..n];
      ObserveMerged(FoldFacts(f, events[..n]), events[n], e);
    } else {
      assert (events + [CloneEvent(e)])[..|events|] == events;
      ObserveClone(FoldFacts(f, events), e);
    }
  }

  lemma ObserveClone(f: Facts, e: Event)
    ensures Observe(f, CloneEvent(e)) == Observe(f, e)
  {
    hide AddTurns, Max, ObserveTokenDelta;
    ObserveClonedDelta(f, e);
    var c := CloneEvent(e);
    assert c.kind == e.kind && c.usage == e.usage && c.text == e.text && c.progress == e.progress && c.toolCall == e.toolCall;
    hide CloneEvent;
  }

  lemma ObserveClonedDelta(f: Facts, e: Event)
    ensures ObserveTokenDelta(f, CloneEvent(e)) == ObserveTokenDelta(f, e)
  {
    hide Wrap64;
  }

  // Folding the usage facts over the compacted events gives what folding over
  // the originals gives.
  lemma {:induction false} CompactionKeepsFacts(f: Facts, events: seq<Event>)
    ensures FoldFacts(f, Compact(events)) == FoldFacts(f, events)
  {
    hide Observe, Append;
    if events != [] {
      CompactionKeepsFacts(f, events[..|events| - 1]);
      AppendKeepsFacts(f, Compact(events[..|events| - 1]), events[|events| - 1]);
    }
  }

  // ---------------------------------------------------------------------
  // Exactness, and exactly when it fails
  // ---------------------------------------------------------------------

  function Visible(events: seq<Event>): string {
    FoldFacts(NewFacts(false), events).visibleOutput
  }

  lemma VisibleOfRewritten(f: Facts, a: Event, text: string, progress: int)
    requires TextShape(a)
    ensures Observe(f, a).visibleOutput == f.visibleOutput + a.text
    ensures Observe(f, a.(text := text, progress := progress)).visibleOutput == f.visibleOutput + text
  {}

  // What one event adds to the visible output.
  function Shown(e: Event): string {
    if e.kind == Text || e.kind == Thinking then e.text
    else if e.kind == ToolCallEvent && e.toolCall.Some? then e.toolCall.value.name + e.toolCall.value.arguments
    else ""
  }

  lemma ObserveShows(f: Facts, e: Event)
    ensures Observe(f, e).visibleOutput == f.visibleOutput + Shown(e)
  {
    hide AddTurns, ObserveTokenDelta;
    if e.toolCall.Some? {
      assert f.visibleOutput + (e.toolCall.value.name + e.toolCall.value.arguments)
          == f.visibleOutput + e.toolCall.value.name + e.toolCall.value.arguments;
    }
  }

  lemma LossHidesText(s: Snap, rest: seq<Event>, last: Event)
    requires Accounts(s, rest) && rest != [] && Loses(rest[|rest| - 1], last)
    ensures |Visible(Appended(s, last).events)| + |rest[|rest| - 1].text| == |Visible(s.events)| + |last.text|
  {
    hide ArraySize, Size, Escape, EventSize, Observe, MergedProgress, Appended;
    AppendedEvents(s, rest, last);
    var k := |s.events| - 1;
    assert Appended(s, last).events[..k] == s.events[..k];
    VisibleOfRewritten(FoldFacts(NewFacts(false), s.events[..k]), s.events[k], last.text, MergedProgress(s.events[k], last));
  }

  // Every character that a retained text loses is missing from the visible output.
  lemma {:induction false} FillVisible(events: seq<Event>)
    requires Fill(events).Some?
    ensures |Visible(Fill(events).value.events)| + |Lost(events)| == |Visible(events)|
  {
    hide Accounts, Size, Escape, Appended, Append, Observe, CarriesState, SnapshotText;
    if events != [] {
      var n := |events| - 1;
      var rest, last := events[..n], events[n];
      assert events == rest + [last];
      FillVisible(rest);
      FillCounts(rest);
      var s := Fill(rest).value;
      LostGrows(rest, last);
      ObserveShows(FoldFacts(NewFacts(false), rest), last);
      if rest != [] && Loses(rest[n - 1], last) {
        LossHidesText(s, rest, last);
      } else {
        AppendedEvents(s, rest, last);
        AppendKeepsFacts(NewFacts(false), s.events, last);
        ObserveShows(FoldFacts(NewFacts(false), s.events), last);
      }
    }
  }

  lemma {:induction false} LossIsMissingText(events: seq<Event>)
    ensures Lost(events) == "" <==> Lossless(events)
    ensures Lost(events) != "" ==> Size(Escape(Lost(events))) > 0
  {
    hide Escape, Size;
    if events != [] {
      var n := |events| - 1;
      assert events == events[..n] + [events[n]];
      LossIsMissingText(events[..n]);
      LosslessPrefix(events[..n], events[n]);
      if Lost(events) != "" {
        EscapesAreVisible(Lost(events));
      }
    }
  }

  lemma EscapesAreVisible(s: string)
    requires s != ""
    ensures Size(Escape(s)) > 0
  {
    hide EscapeChar;
    var c := EscapeChar(s[|s| - 1]);
    SizeOfConcatenation(Escape(s[..|s| - 1]), c);
    assert Size(c) == Size(c[..|c| - 1]) + Utf8Size(c[|c| - 1]);
  }

  // After any appends that were all accepted: the counter equals the length of
  // the JSON array of the retained events, and the text visible in them is the
  // text that was appended, exactly when no mergeable delta followed a text
  // delta that travelled with a checkpoint or blobs.  In that case the retained
  // events are the compaction of the appended ones.
  lemma SnapshotIsExactIffLossless(events: seq<Event>)
    requires events != [] && Fill(events).Some?
    ensures var s := Fill(events).value;
            && s.bytes <= MAX_COMPLETED_EVENT_BYTES
            && (s.bytes == ArraySize(s.events) <==> Lossless(events))
            && (Visible(s.events) == Visible(events) <==> Lossless(events))
            && (s.events == Compact(events) <==> Lossless(events))
            && (Lossless(events) ==> s.lastSize == EventSize(s.events[|s.events| - 1]))
  {
    hide Escape, Size, ArraySize, EventSize, Append, Observe;
    FillCounts(events);
    FillVisible(events);
    LossIsMissingText(events);
    CompactionKeepsFacts(NewFacts(false), events);
    EmptySizes();
  }

  function TextEvent(text: string, checkpoint: string): Event {
    Event(Text, text, "", 0, 0, None, None, None, None, checkpoint, map[])
  }

  lemma {:induction false} SizeIsSmall(s: string)
    ensures Size(s) <= 4 * |s|
  {
    if s != [] {
      SizeIsSmall(s[..|s| - 1]);
    }
  }

  lemma TextEventIsSmall(c: char, checkpoint: string)
    ensures EventSize(TextEvent([c], checkpoint)) <= 400 && Size(Quote([c])) <= 400
  {
    hide Size;
    var e := TextEvent([c], checkpoint);
    assert [c][..0] == [];
    assert |Escape([c])| <= 12;
    assert |Digits(1)| == 1;
    SizeIsSmall(EventJson(e));
    SizeIsSmall(Quote([c]));
  }

  lemma OneDelta()
    ensures var a := TextEvent("a", "c");
            Fill([a]) == Some(Snap([CloneEvent(a)], 2 + EventSize(a), EventSize(a), "")) && EventSize(a) <= 400
  {
    hide EventSize, Quote, JoinText, JoinUsage, MergesUsage;
    var a := TextEvent("a", "c");
    TextEventIsSmall('a', "c");
    assert [a][..0] == [] && [] + [CloneEvent(a)] == [CloneEvent(a)];
    assert Fill([]) == Some(EMPTY_SNAP);
  }

  // Two deltas, the first one with a checkpoint: only the second is left.
  lemma LostText()
    ensures var s := Fill([TextEvent("a", "c"), TextEvent("b", "")]);
            s.Some? && |s.value.events| == 1 && s.value.events[0].text == "b"
  {
    hide EventSize, Size, Quote, Fill, JoinUsage, MergesUsage;
    var (a, b) := (TextEvent("a", "c"), TextEvent("b", ""));
    OneDelta();
    TextEventIsSmall('b', "");
    FillLast([a], b);
    assert [a] + [b] == [a, b];
    var s := Snap([CloneEvent(a)], 2 + EventSize(a), EventSize(a), "");
    assert MergesText(s.events[0], b);
    assert Appended(s, b) == JoinText(s, b);
  }

  lemma FillLast(events: seq<Event>, e: Event)
    requires Fill(events).Some?
    ensures Fill(events + [e]) == Step(Fill(events).value, e)
  {
    hide Step;
    assert (events + [e])[..|events|] == events;
  }

  // An event is rejected exactly when the array with it would exceed the limit.
  lemma RejectedIffOverLimit(events: seq<Event>, e: Event)
    requires Fill(events).Some? && Lossless(events + [e])
    ensures Fill(events + [e]).Some? <==> ArraySize(Append(Compact(events), e)) <= MAX_COMPLETED_EVENT_BYTES
  {
    hide Escape, Size, ArraySize, EventSize, Append, Appended;
    var all := events + [e];
    assert all[..|all| - 1] == events;
    FillCounts(events);
    LosslessPrefix(events, e);
    AppendCounts(Fill(events).value, events, e);
    AppendedEvents(Fill(events).value, events, e);
    LossIsMissingText(all);
    EmptySizes();
  }

  // ---------------------------------------------------------------------
  // Normal form and replay
  // ---------------------------------------------------------------------

  ghost predicate NormalForm(events: seq<Event>) {
    && Stateless(events)
    && forall i {:trigger events[i]} :: 0 < i < |events| ==> !Mergeable(events[i - 1], events[i])
  }

  lemma MergeKeepsLeftApart(x: Event, a: Event, b: Event)
    requires !Mergeable(x, a) && Mergeable(a, b)
    ensures !Mergeable(x, Merge(a, b))
  {}

  // A text delta that travels with a checkpoint or blobs.
  predicate LooseText(e: Event) {
    TextShape(e) && CarriesState(e)
  }

  lemma AppendKeepsNormalForm(events: seq<Event>, e: Event)
    requires NormalForm(events) && !LooseText(e)
    ensures NormalForm(Append(events, e))
  {
    hide MergesText, MergesUsage, Merge, Mergeable, TextShape;
    var n := |events| - 1;
    var after := Append(events, e);
    if events != [] && Mergeable(events[n], e) {
      MergedIsStateless(events[n], e);
      if n > 0 {
        assert !Mergeable(events[n - 1], events[n]);
        MergeKeepsLeftApart(events[n - 1], events[n], e);
      }
    } else if events != [] {
      ClonesMergeAlike(events[n], e);
    }
  }

  lemma MergedIsStateless(a: Event, b: Event)
    requires Mergeable(a, b) && !CarriesState(a)
    ensures !CarriesState(Merge(a, b))
  {}

  // Dropping the checkpoint can only make an event mergeable when it is a text
  // delta, and that is the loss SnapshotIsExactIffLossless measures.
  lemma ClonesMergeAlike(a: Event, b: Event)
    requires !LooseText(b)
    ensures Mergeable(a, CloneEvent(b)) <==> Mergeable(a, b)
  {}

  // No two neighbours of a compacted list merge.
  lemma {:induction false} CompactIsNormalForm(events: seq<Event>)
    requires forall e :: e in events ==> !LooseText(e)
    ensures NormalForm(Compact(events))
  {
    hide LooseText, Append;
    if events != [] {
      var n := |events| - 1;
      assert events[n] in events;
      CompactIsNormalForm(events[..n]);
      AppendKeepsNormalForm(Compact(events[..n]), events[n]);
    }
  }

  // A list in normal form is its own compaction.
  lemma {:induction false} NormalFormIsFixed(events: seq<Event>)
    requires NormalForm(events)
    ensures Compact(events) == events
  {
    hide Mergeable, CarriesState;
    if events != [] {
      var n := |events| - 1;
      NormalFormPrefix(events);
      NormalFormIsFixed(events[..n]);
      assert events[n] in events;
      StatelessIsOwnClone(events[n]);
      if n > 0 {
        assert events[..n][n - 1] == events[n - 1];
      }
    }
  }

  lemma NormalFormPrefix(events: seq<Event>)
    requires NormalForm(events) && events != []
    ensures NormalForm(events[..|events| - 1])
  {
    hide Mergeable, CarriesState;
    var rest := events[..|events| - 1];
    forall i | 0 < i < |rest|
      ensures !Mergeable(rest[i - 1], rest[i])
    {
      assert rest[i] == events[i] && rest[i - 1] == events[i - 1];
    }
  }

  lemma StatelessIsOwnClone(e: Event)
    requires !CarriesState(e)
    ensures CloneEvent(e) == e
  {}

  // Re-appending a list in normal form is accepted whenever the whole fits.
  lemma {:induction false} NormalFormRefills(events: seq<Event>)
    requires NormalForm(events) && ArraySize(events) <= MAX_COMPLETED_EVENT_BYTES
    ensures Fill(events).Some? && Fill(events).value.events == events
  {
    hide Mergeable, CarriesState, ArraySize, Appended, Append, Loses, Accounts;
    if events != [] {
      var n := |events| - 1;
      var rest := events[..n];
      NormalFormPrefix(events);
      assert rest + [events[n]] == events;
      ArraySizeOfLast(rest, events[n]);
      NormalFormRefills(rest);
      NormalFormIsFixed(rest);
      NormalFormIsFixed(events);
      StatelessIsLossless(events);
      RejectedIffOverLimit(rest, events[n]);
      FillCounts(events);
    }
  }

  lemma StatelessIsLossless(events: seq<Event>)
    requires Stateless(events)
    ensures Lossless(events)
  {
    forall i | 0 < i < |events|
      ensures !Loses(events[i - 1], events[i])
    {
      assert events[i - 1] in events;
    }
  }

  datatype PersistedEvent = Persisted(
    kind: EventType,
    text: string,
    signature: string,
    progress: int,
    tokens: Int64,
    usage: Option<UsageObservation>,
    toolCall: Option<ToolCall>,
    toolResult: Option<ToolResult>,
    search: Option<HostedSearch>)

  function PersistedFrom(e: Event): PersistedEvent {
    Persisted(e.kind, e.text, e.signature, e.progress, e.tokens, e.usage, e.toolCall, e.toolResult, e.search)
  }

  function EventFrom(p: PersistedEvent): Event {
    Event(p.kind, p.text, p.signature, p.progress, p.tokens, p.usage, p.toolCall, p.toolResult, p.search, "", map[])
  }

  // The loop persistEvents and newSnapshotOutput share.
  method FillSnapshot(events: seq<Event>) returns (kept: Option<seq<Event>>)
    ensures kept.Some? <==> Fill(events).Some?
    ensures kept.Some? ==> kept.value == Fill(events).value.events
  {
    hide Step, Appended, Opened;
    var snapshot := new EventSnapshot();
    for i := 0 to |events|
      invariant Fill(events[..i]) == Some(snapshot.View())
      invariant fresh(snapshot)
    {
      var ok := snapshot.AppendEvent(events[i]);
      assert events[..i + 1][..i] == events[..i];
      AcceptedStep(events[..i + 1]);
      if !ok {
        FillStaysRejected(events, i + 1);
        return None;
      }
    }
    assert events[..|events|] == events;
    return Some(snapshot.events);
  }

  lemma AcceptedStep(events: seq<Event>)
    requires events != [] && Fill(events[..|events| - 1]).Some?
    ensures var s, e := Fill(events[..|events| - 1]).value, events[|events| - 1];
            Fill(events) == (if Step(s, e).Some? then Some(Appended(s, e)) else None)
  {
    hide Appended;
  }

  // persistEvents: None when the snapshot outgrows its limit.
  method PersistEvents(events: seq<Event>) returns (persisted: Option<seq<PersistedEvent>>)
    ensures persisted.Some? <==> Fill(events).Some?
    ensures persisted.Some? ==>
              var kept := Fill(events).value.events;
              && |persisted.value| == |kept|
              && forall i :: 0 <= i < |kept| ==> persisted.value[i] == PersistedFrom(kept[i])
  {
    hide Fill;
    var kept := FillSnapshot(events);
    if kept.None? {
      return None;
    }
    var list := [];
    for i := 0 to |kept.value|
      invariant |list| == i
      invariant forall k :: 0 <= k < i ==> list[k] == PersistedFrom(kept.value[k])
    {
      list := list + [PersistedFrom(kept.value[i])];
    }
    return Some(list);
  }

  // newSnapshotOutput: the events queued for a replay, and whether the output
  // closes without an error.
  method NewSnapshotOutput(events: seq<Event>) returns (queue: seq<Event>, ok: bool)
    ensures ok <==> Fill(events).Some?
    ensures queue == if ok then Fill(events).value.events else []
  {
    hide Fill;
    var kept := FillSnapshot(events);
    if kept.None? {
      return [], false;
    }
    queue := [];
    for i := 0 to |kept.value|
      invariant queue == kept.value[..i]
    {
      queue := queue + [kept.value[i]];
    }
    return queue, true;
  }

  lemma {:induction false} FillStaysRejected(events: seq<Event>, k: nat)
    requires k <= |events| && Fill(events[..k]).None?
    ensures Fill(events).None?
  {
    hide Step;
    if k == |events| {
      assert events[..k] == events;
    } else {
      assert events[..|events| - 1][..k] == events[..k];
      FillStaysRejected(events[..|events| - 1], k);
    }
  }

  // eventsFromPersisted: an event without a type makes the whole record invalid.
  method EventsFromPersisted(persisted: seq<PersistedEvent>) returns (events: Option<seq<Event>>)
    ensures events.Some? <==> forall p :: p in persisted ==> p.kind != NoType
    ensures events.Some? ==> |events.value| == |persisted|
                             && forall i :: 0 <= i < |persisted| ==> events.value[i] == EventFrom(persisted[i])
  {
    var out := [];
    for i := 0 to |persisted|
      invariant |out| == i
      invariant forall k :: 0 <= k < i ==> persisted[k].kind != NoType && out[k] == EventFrom(persisted[k])
    {
      if persisted[i].kind == NoType {
        return None;
      }
      out := out + [EventFrom(persisted[i])];
    }
    return Some(out);
  }

  // What is read back is the compaction of what was saved, and buffering it for
  // a replay neither changes it nor meets the limit.
  lemma ReplayIsWhatWasStored(events: seq<Event>, persisted: seq<PersistedEvent>, restored: seq<Event>)
    requires forall e :: e in events ==> !LooseText(e)
    requires Fill(events).Some? && |persisted| == |Fill(events).value.events|
    requires forall i :: 0 <= i < |persisted| ==> persisted[i] == PersistedFrom(Fill(events).value.events[i])
    requires |restored| == |persisted| && forall i :: 0 <= i < |persisted| ==> restored[i] == EventFrom(persisted[i])
    ensures restored == Compact(events)
    ensures Fill(restored).Some? && Fill(restored).value.events == restored
  {
    hide Fill, ArraySize, Append, LooseText;
    NoLooseTextIsLossless(events);
    CompactIsNormalForm(events);
    var compacted := Compact(events);
    RestoredIsCompact(events);
    forall i | 0 <= i < |restored|
      ensures restored[i] == compacted[i]
    {
      assert compacted[i] in compacted;
      StatelessIsOwnClone(compacted[i]);
    }
    assert restored == compacted;
    NormalFormRefills(restored);
  }

  lemma NoLooseTextIsLossless(events: seq<Event>)
    requires forall e :: e in events ==> !LooseText(e)
    ensures Lossless(events)
  {
    forall i | 0 < i < |events|
      ensures !Loses(events[i - 1], events[i])
    {
      assert events[i - 1] in events;
    }
  }

  lemma RestoredIsCompact(events: seq<Event>)
    requires Fill(events).Some? && Lossless(events)
    ensures Fill(events).value.events == Compact(events)
    ensures ArraySize(Compact(events)) <= MAX_COMPLETED_EVENT_BYTES
  {
    hide Append, Step;
    if events == [] {
      EmptyArraySize();
    } else {
      SnapshotIsExactIffLossless(events);
    }
  }
}
