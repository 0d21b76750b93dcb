// Replaying a compacted snapshot answers what the original events answered.
module CompactionMeanings {
  import opened Events
  import opened Usages
  import opened EventSnapshots
  import C = ClaudeProjections
  import R = ResponsesProjections

  // ---------------------------------------------------------------------
  // Messages clients
  // ---------------------------------------------------------------------

  lemma ClaudeTextJoins(p: C.Projection, x: string, y: string, f: Facts, g: Facts)
    ensures C.EmitText(C.EmitText(p.(facts := f), x).state.(facts := g), y).state == C.EmitText(p.(facts := g), x + y).state
  {
    assert p.text + x + y == p.text + (x + y);
  }

  lemma ClaudeMerges(lib: C.Libraries, p: C.Projection, a: Event, b: Event)
    requires Mergeable(a, b)
    ensures var (x, m) := (C.Handle(lib, p, a), C.Handle(lib, p, Merge(a, b)));
            && x.status == C.Running && m.status == C.Running && C.Handle(lib, x.state, b).status == C.Running
            && m.state == C.Handle(lib, x.state, b).state
  {
    hide Observe, C.EmitText, C.EmitSignedThinking, C.SearchStarted, C.SearchCompleted, C.ToolHandoff, C.Settle,
        MergesUsage, CarriesState;
    ObserveMerged(p.facts, a, b);
    MergeKeepsKind(a, b);
    if MergesText(a, b) {
      ClaudeTextJoins(p, a.text, b.text, Observe(p.facts, a), Observe(Observe(p.facts, a), b));
      EmitTextKeepsFacts(p, a.text, Observe(p.facts, a));
      assert p.thinking + a.text + b.text == p.thinking + (a.text + b.text);
    }
  }

  lemma MergeKeepsKind(a: Event, b: Event)
    requires Mergeable(a, b)
    ensures Merge(a, b).kind == a.kind == b.kind
    ensures if MergesText(a, b) then (a.kind == Text || a.kind == Thinking) && a.text != "" && b.text != "" && Merge(a, b).text == a.text + b.text
            else a.kind == UsageDelta
  {}

  lemma EmitTextKeepsFacts(p: C.Projection, text: string, f: Facts)
    ensures C.EmitText(p.(facts := f), text).state.facts == f
  {}

  lemma ClaudeClones(lib: C.Libraries, p: C.Projection, e: Event)
    ensures C.Handle(lib, p, CloneEvent(e)) == C.Handle(lib, p, e)
  {
    hide Observe, C.EmitText, C.EmitSignedThinking, C.SearchStarted, C.SearchCompleted, C.ToolHandoff, C.Settle;
    ObserveClone(p.facts, e);
  }

  predicate SameClaude(a: C.Session, b: C.Session) {
    a.p == b.p && a.status == b.status
  }

  lemma ClaudeAppends(lib: C.Libraries, s: C.Session, events: seq<Event>, e: Event)
    ensures SameClaude(C.Run(lib, s, Append(events, e)), C.Next(lib, C.Run(lib, s, events), e))
  {
    hide C.Handle, Mergeable, Merge;
    var n := |events| - 1;
    if events != [] && Mergeable(events[n], e) {
      var merged := events[..n] + [Merge(events[n], e)];
      assert merged[..n] == events[..n];
      ClaudeMerges(lib, C.Run(lib, s, events[..n]).p, events[n], e);
    } else {
      assert (events + [CloneEvent(e)])[..|events|] == events;
      ClaudeClones(lib, C.Run(lib, s, events).p, e);
    }
  }

  // The non-stream message of the compacted events is that of the originals.
  lemma {:induction false} ClaudeIgnoresCompaction(lib: C.Libraries, s: C.Session, events: seq<Event>)
    ensures SameClaude(C.Run(lib, s, Compact(events)), C.Run(lib, s, events))
    ensures C.NonStream(C.Run(lib, s, Compact(events)).p) == C.NonStream(C.Run(lib, s, events).p)
  {
    hide C.Handle, Append;
    if events != [] {
      var rest := events[..|events| - 1];
      ClaudeIgnoresCompaction(lib, s, rest);
      ClaudeAppends(lib, s, Compact(rest), events[|events| - 1]);
    }
  }

  // ---------------------------------------------------------------------
  // Responses clients
  // ---------------------------------------------------------------------

  lemma ResponsesTextJoins(p: R.Projection, x: string, y: string, f: Facts, g: Facts)
    ensures R.EmitText(R.EmitText(p.(facts := f), x).state.(facts := g), y).state == R.EmitText(p.(facts := g), x + y).state
    ensures R.EmitText(p.(facts := f), x).state.facts == f
  {
    hide R.ItemId;
    var q := R.EmitText(p.(facts := f), x).state;
    assert q.started && !q.reasoningOpen && q.messageOpen;
    assert q.text == (if p.messageOpen then p.text else p.text) + x;
    assert p.text + x + y == p.text + (x + y);
  }

  lemma ResponsesThinkingJoins(lib: C.Libraries, p: R.Projection, x: string, y: string, f: Facts, g: Facts)
    ensures R.EmitThinking(lib, R.EmitThinking(lib, p.(facts := f), x).state.(facts := g), y).state
            == R.EmitThinking(lib, p.(facts := g), x + y).state
    ensures R.EmitThinking(lib, p.(facts := f), x).state.facts == f
  {
    hide R.ItemId, R.Annotations;
    var q := R.EmitThinking(lib, p.(facts := f), x).state;
    assert q.started && q.reasoningOpen && !q.messageOpen;
    assert p.reasoning + x + y == p.reasoning + (x + y);
  }

  lemma ResponsesMerges(lib: C.Libraries, p: R.Projection, a: Event, b: Event)
    requires Mergeable(a, b)
    ensures var (x, m) := (R.Handle(lib, p, a), R.Handle(lib, p, Merge(a, b)));
            && x.status == C.Running && m.status == C.Running && R.Handle(lib, x.state, b).status == C.Running
            && m.state == R.Handle(lib, x.state, b).state
  {
    hide Observe, R.EmitText, R.EmitThinking, R.SearchStarted, R.SearchCompleted, R.FunctionCalls, R.CloseReasoning,
        R.Settle, R.Finish,
      MergesUsage, CarriesState;
    ObserveMerged(p.facts, a, b);
    MergeKeepsKind(a, b);
    if MergesText(a, b) {
      ResponsesTextJoins(p, a.text, b.text, Observe(p.facts, a), Observe(Observe(p.facts, a), b));
      ResponsesThinkingJoins(lib, p, a.text, b.text, Observe(p.facts, a), Observe(Observe(p.facts, a), b));
    }
  }

  lemma ResponsesClones(lib: C.Libraries, p: R.Projection, e: Event)
    ensures R.Handle(lib, p, CloneEvent(e)) == R.Handle(lib, p, e)
  {
    hide Observe, R.EmitText, R.EmitThinking, R.SearchStarted, R.SearchCompleted, R.FunctionCalls, R.CloseReasoning,
        R.Settle, R.Finish;
    ObserveClone(p.facts, e);
  }

  predicate SameResponses(a: R.Session, b: R.Session) {
    a.p == b.p && a.status == b.status
  }

  lemma ResponsesAppends(lib: C.Libraries, s: R.Session, events: seq<Event>, e: Event)
    ensures SameResponses(R.Run(lib, s, Append(events, e)), R.Next(lib, R.Run(lib, s, events), e))
  {
    hide R.Handle, Mergeable, Merge;
    var n := |events| - 1;
    if events != [] && Mergeable(events[n], e) {
      var merged := events[..n] + [Merge(events[n], e)];
      assert merged[..n] == events[..n];
      ResponsesMerges(lib, R.Run(lib, s, events[..n]).p, events[n], e);
    } else {
      assert (events + [CloneEvent(e)])[..|events|] == events;
      ResponsesClones(lib, R.Run(lib, s, events).p, e);
    }
  }

  // The envelope of the compacted events is that of the originals.
  lemma {:induction false} ResponsesIgnoreCompaction(lib: C.Libraries, s: R.Session, events: seq<Event>)
    ensures SameResponses(R.Run(lib, s, Compact(events)), R.Run(lib, s, events))
    ensures R.NonStream(R.Run(lib, s, Compact(events)).p) == R.NonStream(R.Run(lib, s, events).p)
  {
    hide R.Handle, Append;
    if events != [] {
      var rest := events[..|events| - 1];
      ResponsesIgnoreCompaction(lib, s, rest);
      ResponsesAppends(lib, s, Compact(rest), events[|events| - 1]);
    }
  }
}
