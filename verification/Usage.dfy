// usage_observation.go and the metered carry of segment.go: what a generation
// may report about its token usage.
module Usages {
  import opened Events

  // ---------------------------------------------------------------------
  // Sums of completed native turns
  // ---------------------------------------------------------------------

  function AddCounts(x: ObservedCount, y: ObservedCount): ObservedCount {
    if !x.present || !y.present then NO_COUNT
    else if x.invalid || y.invalid || x.value < 0 || y.value < 0 || y.value > MAX_INT64 - x.value then
      Count(true, true, 0)
    else
      Count(true, false, x.value + y.value)
  }

  function AddTurns(a: UsageObservation, b: UsageObservation): UsageObservation {
    Usage(false, TurnEndedUsage, NO_COUNT,
          AddCounts(a.input, b.input), AddCounts(a.output, b.output),
          AddCounts(a.cacheRead, b.cacheRead), AddCounts(a.cacheWrite, b.cacheWrite),
          AddCounts(a.reasoning, b.reasoning))
  }

  // The running total a measured projection keeps: the first turn as reported,
  // every later one added to it.
  function Total(turns: seq<UsageObservation>): UsageObservation
    requires turns != []
  {
    var n := |turns| - 1;
    if n == 0 then turns[0] else AddTurns(Total(turns[..n]), turns[n])
  }

  // Any way of bracketing a chain of turns.
  datatype Grouping = Turn(obs: UsageObservation) | Chain(left: Grouping, right: Grouping)

  function Leaves(g: Grouping): (turns: seq<UsageObservation>)
    ensures turns != []
  {
    match g
    case Turn(o) => [o]
    case Chain(l, r) => Leaves(l) + Leaves(r)
  }

  function Evaluate(g: Grouping): UsageObservation {
    match g
    case Turn(o) => o
    case Chain(l, r) => AddTurns(Evaluate(l), Evaluate(r))
  }

  datatype Counter = Input | Output | CacheRead | CacheWrite | Reasoning

  function Get(o: UsageObservation, c: Counter): ObservedCount {
    match c
    case Input => o.input
    case Output => o.output
    case CacheRead => o.cacheRead
    case CacheWrite => o.cacheWrite
    case Reasoning => o.reasoning
  }

  predicate Measurable(c: ObservedCount) {
    c.present && !c.invalid && 0 <= c.value
  }

  // The mathematical sum of one counter, whatever its flags say.
  function Sum(turns: seq<UsageObservation>, c: Counter): int {
    if turns == [] then 0 else Sum(turns[..|turns| - 1], c) + Get(turns[|turns| - 1], c).value
  }

  predicate AllPresent(turns: seq<UsageObservation>, c: Counter) {
    turns == [] || (AllPresent(turns[..|turns| - 1], c) && Get(turns[|turns| - 1], c).present)
  }

  predicate AllMeasurable(turns: seq<UsageObservation>, c: Counter) {
    turns == [] || (AllMeasurable(turns[..|turns| - 1], c) && Measurable(Get(turns[|turns| - 1], c)))
  }

  // What the total of two or more turns must be, read off the turns directly:
  // absent when some turn lacks the counter, invalid when some turn's value is
  // unusable or the sum does not fit, the exact sum otherwise.
  function ExactCount(turns: seq<UsageObservation>, c: Counter): ObservedCount {
    if !AllPresent(turns, c) then NO_COUNT
    else if AllMeasurable(turns, c) && 0 <= Sum(turns, c) <= MAX_INT64 then Count(true, false, Sum(turns, c))
    else Count(true, true, 0)
  }

  lemma {:induction false} AllAsMembership(turns: seq<UsageObservation>, c: Counter)
    ensures AllPresent(turns, c) <==> forall o :: o in turns ==> Get(o, c).present
    ensures AllMeasurable(turns, c) <==> forall o :: o in turns ==> Measurable(Get(o, c))
    ensures AllMeasurable(turns, c) ==> 0 <= Sum(turns, c)
  {
    if turns != [] {
      AllAsMembership(turns[..|turns| - 1], c);
      assert turns == turns[..|turns| - 1] + [turns[|turns| - 1]];
    }
  }

  lemma AddedTurns(a: UsageObservation, b: UsageObservation, c: Counter)
    ensures Get(AddTurns(a, b), c) == AddCounts(Get(a, c), Get(b, c))
  {
    hide AddCounts;
  }

  lemma {:induction false} TotalIsExact(turns: seq<UsageObservation>, c: Counter)
    requires |turns| >= 2
    ensures Get(Total(turns), c) == ExactCount(turns, c)
  {
    hide AddTurns, Get;
    var n := |turns| - 1;
    var rest := turns[..n];
    AllAsMembership(rest, c);
    AddedTurns(Total(rest), turns[n], c);
    if n == 1 {
      assert rest == [turns[0]] && rest[..0] == [] && Sum([], c) == 0;
    } else {
      TotalIsExact(rest, c);
    }
  }

  // A total is a measurement exactly when every turn is one and the exact sum
  // fits in 64 bits; then it is that sum.
  lemma TotalIsMeasured(turns: seq<UsageObservation>, c: Counter)
    requires turns != []
    ensures Measurable(Get(Total(turns), c)) <==>
            (forall o :: o in turns ==> Measurable(Get(o, c))) && Sum(turns, c) <= MAX_INT64
    ensures Measurable(Get(Total(turns), c)) ==> Get(Total(turns), c).value == Sum(turns, c)
  {
    AllAsMembership(turns, c);
    if |turns| == 1 {
      assert turns[..0] == [] && Sum([], c) == 0;
    } else {
      TotalIsExact(turns, c);
    }
  }

  lemma AddCountsAssociates(x: ObservedCount, y: ObservedCount, z: ObservedCount)
    ensures AddCounts(AddCounts(x, y), z) == AddCounts(x, AddCounts(y, z))
  {}

  lemma {:induction false} TotalOfConcatenation(a: seq<UsageObservation>, b: seq<UsageObservation>)
    requires a != [] && b != []
    ensures Total(a + b) == AddTurns(Total(a), Total(b))
  {
    var n := |b| - 1;
    assert (a + b)[..|a + b| - 1] == a + b[..n];
    if n == 0 {
      assert a + b[..n] == a;
    } else {
      TotalOfConcatenation(a, b[..n]);
      var x, y, z := Total(a), Total(b[..n]), b[n];
      AddCountsAssociates(x.input, y.input, z.input);
      AddCountsAssociates(x.output, y.output, z.output);
      AddCountsAssociates(x.cacheRead, y.cacheRead, z.cacheRead);
      AddCountsAssociates(x.cacheWrite, y.cacheWrite, z.cacheWrite);
      AddCountsAssociates(x.reasoning, y.reasoning, z.reasoning);
    }
  }

  lemma {:induction false} BracketingIsIrrelevant(g: Grouping)
    ensures Evaluate(g) == Total(Leaves(g))
  {
    match g {
      case Turn(o) =>
      case Chain(l, r) =>
        BracketingIsIrrelevant(l);
        BracketingIsIrrelevant(r);
        TotalOfConcatenation(Leaves(l), Leaves(r));
    }
  }

  lemma {:induction false} SumWithoutOne(turns: seq<UsageObservation>, k: nat, c: Counter)
    requires k < |turns|
    ensures Sum(turns, c) == Sum(turns[..k] + turns[k + 1..], c) + Get(turns[k], c).value
  {
    var n := |turns| - 1;
    var rest := turns[..k] + turns[k + 1..];
    if k == n {
      assert rest == turns[..n];
    } else {
      SumWithoutOne(turns[..n], k, c);
      assert turns[..n][..k] + turns[..n][k + 1..] == rest[..|rest| - 1];
      assert rest[|rest| - 1] == turns[n];
    }
  }

  lemma WithoutOne(turns: seq<UsageObservation>, k: nat)
    requires k < |turns|
    ensures multiset(turns) == multiset(turns[..k] + turns[k + 1..]) + multiset{turns[k]}
  {
    assert turns == turns[..k] + [turns[k]] + turns[k + 1..];
  }

  lemma MatchLast(a: seq<UsageObservation>, b: seq<UsageObservation>) returns (k: nat)
    requires a != [] && multiset(a) == multiset(b)
    ensures k < |b| && b[k] == a[|a| - 1]
    ensures multiset(a[..|a| - 1]) == multiset(b[..k] + b[k + 1..])
  {
    var n := |a| - 1;
    assert a[n] in multiset(b);
    k :| 0 <= k < |b| && b[k] == a[n];
    WithoutOne(a, n);
    WithoutOne(b, k);
    assert a[..n] + a[n + 1..] == a[..n];
    var rest := b[..k] + b[k + 1..];
    assert multiset(a[..n]) == multiset(a) - multiset{a[n]};
    assert multiset(rest) == multiset(b) - multiset{b[k]};
  }

  lemma {:induction false} SumIsOrderFree(a: seq<UsageObservation>, b: seq<UsageObservation>, c: Counter)
    requires multiset(a) == multiset(b)
    ensures Sum(a, c) == Sum(b, c)
    decreases |a|
  {
    if a == [] {
      assert |b| == |multiset(b)| == 0;
    } else {
      var k := MatchLast(a, b);
      SumIsOrderFree(a[..|a| - 1], b[..k] + b[k + 1..], c);
      SumWithoutOne(b, k, c);
    }
  }

  lemma ExactCountIsOrderFree(a: seq<UsageObservation>, b: seq<UsageObservation>, c: Counter)
    requires multiset(a) == multiset(b)
    ensures ExactCount(a, c) == ExactCount(b, c)
  {
    SumIsOrderFree(a, b, c);
    AllAsMembership(a, c);
    AllAsMembership(b, c);
    assert forall o :: o in a <==> o in multiset(a);
    assert forall o :: o in b <==> o in multiset(b);
  }

  // Turns may be grouped and ordered in any way without changing the total.
  lemma GroupingAndOrderAreIrrelevant(g: Grouping, h: Grouping)
    requires multiset(Leaves(g)) == multiset(Leaves(h))
    ensures Evaluate(g) == Evaluate(h)
  {
    BracketingIsIrrelevant(g);
    BracketingIsIrrelevant(h);
    var a, b := Leaves(g), Leaves(h);
    assert |a| == |multiset(a)| == |b|;
    if |a| == 1 {
      assert a[0] in multiset(b);
    } else {
      forall c: Counter
        ensures Get(Total(a), c) == Get(Total(b), c)
      {
        TotalIsExact(a, c);
        TotalIsExact(b, c);
        ExactCountIsOrderFree(a, b, c);
      }
      assert Total(a).input == Get(Total(a), Input) && Total(a).output == Get(Total(a), Output);
      assert Total(a).cacheRead == Get(Total(a), CacheRead) && Total(a).cacheWrite == Get(Total(a), CacheWrite);
      assert Total(a).reasoning == Get(Total(a), Reasoning);
    }
  }

  // ---------------------------------------------------------------------
  // One measured turn
  // ---------------------------------------------------------------------

  datatype MeasuredTurn = Measured(
    input: Int64, totalInput: Int64, output: Int64, cacheRead: Int64, cacheWrite: Int64, reasoning: Int64)

  // The reported input includes both cache buckets; the measured net input does
  // not.  Cached amounts that exceed the input, or a total beyond 64 bits, leave
  // the turn unmeasured, and so does any absent, invalid or negative counter.
  function MeasureTurn(o: UsageObservation): (m: Option<MeasuredTurn>)
    ensures m.Some? <==>
            && o.kind == TurnEndedUsage
            && Measurable(o.input) && Measurable(o.output) && Measurable(o.cacheRead) && Measurable(o.cacheWrite)
            && o.cacheRead.value + o.cacheWrite.value <= o.input.value
            && o.input.value + o.output.value <= MAX_INT64
    ensures m.Some? ==>
              var u := m.value;
              && u.totalInput == o.input.value && u.output == o.output.value
              && u.input + u.cacheRead + u.cacheWrite == u.totalInput
              && 0 <= u.input && 0 <= u.cacheRead && 0 <= u.cacheWrite
              && u.totalInput + u.output <= MAX_INT64
              && 0 <= u.reasoning <= u.output
  {
    if o.kind != TurnEndedUsage then None
    else if !Measurable(o.input) || !Measurable(o.output) || !Measurable(o.cacheRead) || !Measurable(o.cacheWrite) then None
    else if o.cacheRead.value > o.input.value
         || o.cacheWrite.value > o.input.value - o.cacheRead.value
         || o.output.value > MAX_INT64 - o.input.value then None
    else
      var reasoning := if Measurable(o.reasoning) && o.reasoning.value <= o.output.value then o.reasoning.value else 0;
      Some(Measured(o.input.value - o.cacheRead.value - o.cacheWrite.value,
                    o.input.value, o.output.value, o.cacheRead.value, o.cacheWrite.value, reasoning))
  }

  // ---------------------------------------------------------------------
  // Facts gathered from the event stream
  // ---------------------------------------------------------------------

  datatype Facts = Facts(
    measuredEnabled: bool,
    terminalCount: nat,
    freshTerminal: bool,
    visibleOutput: string,
    tokenDelta: Int64,
    tokenDeltaObserved: bool,
    tokenDeltaInvalid: bool,
    turnEnded: Option<UsageObservation>,
    hostedSearches: nat,
    completedSearches: nat,
    completedSearchObserved: bool,
    progressEvents: int)

  function NewFacts(measured: bool): Facts {
    Facts(measured, 0, false, "", 0, false, false, None, 0, 0, false, 0)
  }

  predicate IsTurnEnd(e: Event) {
    e.kind == UsageObserved && e.usage.Some? && e.usage.value.kind == TurnEndedUsage
  }

  function DeltaOf(e: Event): ObservedCount {
    if e.usage.Some? && e.usage.value.kind == TokenDeltaUsage then e.usage.value.tokenDelta
    else Count(true, e.tokens < 0, e.tokens)
  }

  function ObserveTokenDelta(f: Facts, e: Event): (g: Facts)
    ensures g == f.(tokenDelta := g.tokenDelta, tokenDeltaObserved := g.tokenDeltaObserved,
        tokenDeltaInvalid := g.tokenDeltaInvalid)
  {
    var count := DeltaOf(e);
    if count.invalid then f.(tokenDeltaInvalid := true)
    else if !count.present then f
    else f.(tokenDeltaObserved := true, tokenDelta := Wrap64(f.tokenDelta + count.value))
  }

  function Observe(f: Facts, e: Event): Facts {
    match e.kind
    case Text => f.(visibleOutput := f.visibleOutput + e.text)
    case ToolCallEvent =>
      if e.toolCall.Some? then f.(visibleOutput := f.visibleOutput + e.toolCall.value.name + e.toolCall.value.arguments) else f
    case UsageDelta => ObserveTokenDelta(f, e)
    case UsageObserved =>
      if IsTurnEnd(e) then
        f.(freshTerminal := f.freshTerminal || !e.usage.value.carried,
           turnEnded := if f.measuredEnabled && f.turnEnded.Some? then Some(AddTurns(f.turnEnded.value, e.usage.value)) else e.usage,
           terminalCount := f.terminalCount + 1)
      else f
    case HostedSearchCall => f.(hostedSearches := f.hostedSearches + 1)
    case HostedSearchStarted => f.(progressEvents := f.progressEvents + 1)
    case HostedSearchCompleted =>
      f.(completedSearches := f.completedSearches + 1, completedSearchObserved := true, progressEvents := f.progressEvents + 1)
    case Thinking =>
      f.(visibleOutput := f.visibleOutput + e.text,
         progressEvents := f.progressEvents + if e.text != "" then Max(1, e.progress) else 0)
    case ThinkingCompleted => f.(progressEvents := f.progressEvents + 1)
    case _ => f
  }

  function FoldFacts(f: Facts, events: seq<Event>): Facts {
    if events == [] then f else Observe(FoldFacts(f, events[..|events| - 1]), events[|events| - 1])
  }

  // usageFacts: the fields are updated in place, one event at a time.
  class UsageFacts {
    var facts: Facts

    constructor (measured: bool)
      ensures facts == NewFacts(measured)
    {
      facts := NewFacts(measured);
    }

    method ObserveEvent(e: Event)
      modifies this
      ensures facts == Observe(old(facts), e)
    {
      match e.kind {
        case Text => facts := facts.(visibleOutput := facts.visibleOutput + e.text);
        case ToolCallEvent =>
          if e.toolCall.Some? {
            facts := facts.(visibleOutput := facts.visibleOutput + e.toolCall.value.name);
            facts := facts.(visibleOutput := facts.visibleOutput + e.toolCall.value.arguments);
          }
        case UsageDelta => ObserveDelta(e);
        case UsageObserved =>
          if e.usage.Some? && e.usage.value.kind == TurnEndedUsage {
            facts := facts.(freshTerminal := facts.freshTerminal || !e.usage.value.carried);
            if facts.measuredEnabled && facts.turnEnded.Some? {
              facts := facts.(turnEnded := Some(AddTurns(facts.turnEnded.value, e.usage.value)));
            } else {
              facts := facts.(turnEnded := e.usage);
            }
            facts := facts.(terminalCount := facts.terminalCount + 1);
          }
        case HostedSearchCall => facts := facts.(hostedSearches := facts.hostedSearches + 1);
        case HostedSearchStarted => facts := facts.(progressEvents := facts.progressEvents + 1);
        case HostedSearchCompleted =>
          facts := facts.(completedSearches := facts.completedSearches + 1, completedSearchObserved := true);
          facts := facts.(progressEvents := facts.progressEvents + 1);
        case Thinking =>
          facts := facts.(visibleOutput := facts.visibleOutput + e.text);
          if e.text != "" {
            facts := facts.(progressEvents := facts.progressEvents + Max(1, e.progress));
          }
        case ThinkingCompleted => facts := facts.(progressEvents := facts.progressEvents + 1);
        case _ =>
      }
    }

    method ObserveDelta(e: Event)
      modifies this
      ensures facts == ObserveTokenDelta(old(facts), e)
    {
      var count := Count(true, false, e.tokens);
      if e.usage.Some? && e.usage.value.kind == TokenDeltaUsage {
        count := e.usage.value.tokenDelta;
      } else if e.tokens < 0 {
        count := count.(invalid := true);
      }
      if count.invalid {
        facts := facts.(tokenDeltaInvalid := true);
        return;
      }
      if !count.present {
        return;
      }
      facts := facts.(tokenDeltaObserved := true, tokenDelta := Wrap64(facts.tokenDelta + count.value));
    }
  }

  // The native turns that ended in a stream, in order.
  function TurnEnds(events: seq<Event>): seq<UsageObservation> {
    if events == [] then []
    else
      var last := events[|events| - 1];
      TurnEnds(events[..|events| - 1]) + if IsTurnEnd(last) then [last.usage.value] else []
  }

  lemma ObservedTurn(f: Facts, e: Event)
    requires f.measuredEnabled
    ensures var t := Observe(f, e);
            && t.measuredEnabled
            && t.turnEnded == (if !IsTurnEnd(e) then f.turnEnded
                               else if f.turnEnded.None? then e.usage else Some(AddTurns(f.turnEnded.value, e.usage.value)))
            && t.freshTerminal == (f.freshTerminal || (IsTurnEnd(e) && !e.usage.value.carried))
  {
    hide ObserveTokenDelta, AddTurns;
    ObservedDelta(f, e);
  }

  lemma ObservedDelta(f: Facts, e: Event)
    ensures var t := ObserveTokenDelta(f, e);
            t.measuredEnabled == f.measuredEnabled && t.turnEnded == f.turnEnded && t.freshTerminal == f.freshTerminal
  {
    hide Wrap64;
  }

  // A metered projection's terminal usage is the total of all turns it saw.
  lemma {:induction false} MeteredTerminalIsTotal(events: seq<Event>)
    ensures FoldFacts(NewFacts(true), events).measuredEnabled
    ensures FoldFacts(NewFacts(true), events).turnEnded ==
            if TurnEnds(events) == [] then None else Some(Total(TurnEnds(events)))
    ensures FoldFacts(NewFacts(true), events).freshTerminal <==> exists o :: o in TurnEnds(events) && !o.carried
  {
    hide Observe, AddTurns;
    if events != [] {
      var rest, last := events[..|events| - 1], events[|events| - 1];
      MeteredTerminalIsTotal(rest);
      var before, after := TurnEnds(rest), TurnEnds(events);
      ObservedTurn(FoldFacts(NewFacts(true), rest), last);
      if IsTurnEnd(last) {
        assert after == before + [last.usage.value];
        assert after[..|after| - 1] == before;
      } else {
        assert after == before;
      }
    }
  }

  // ---------------------------------------------------------------------
  // The usage a later segment inherits
  // ---------------------------------------------------------------------

  predicate IsUsageEvidence(e: Event) {
    e.kind in {UsageDelta, UsageObserved, HostedSearchCall, HostedSearchStarted, HostedSearchCompleted, ThinkingCompleted}
  }

  function UsageEvidence(events: seq<Event>): seq<Event> {
    if events == [] then []
    else
      var last := events[|events| - 1];
      UsageEvidence(events[..|events| - 1]) + if IsUsageEvidence(last) then [CloneEvent(last)] else []
  }

  function MarkCarried(e: Event): Event {
    if IsTurnEnd(e) then e.(usage := Some(e.usage.value.(carried := true))) else e
  }

  const EMPTY_TURN := Usage(true, TurnEndedUsage, NO_COUNT, NO_COUNT, NO_COUNT, NO_COUNT, NO_COUNT, NO_COUNT)
  const EMPTY_TURN_EVENT := Event(UsageObserved, "", "", 0, 0, Some(EMPTY_TURN), None, None, None, "", map[])

  function MeteredCarry(events: seq<Event>): seq<Event> {
    var evidence := UsageEvidence(events);
    var marked := seq(|evidence|, i requires 0 <= i < |evidence| => MarkCarried(evidence[i]));
    if exists e :: e in evidence && IsTurnEnd(e) then marked else marked + [EMPTY_TURN_EVENT]
  }

  // meteredUsageCarry: marks the evidence in place, then appends an empty turn
  // when no native turn was found.
  method BuildMeteredCarry(events: seq<Event>) returns (carry: seq<Event>)
    ensures carry == MeteredCarry(events)
  {
    carry := UsageEvidence(events);
    ghost var evidence := carry;
    var found := false;
    for i := 0 to |carry|
      invariant |carry| == |evidence|
      invariant found <==> exists k :: 0 <= k < i && IsTurnEnd(evidence[k])
      invariant forall k :: 0 <= k < i ==> carry[k] == MarkCarried(evidence[k])
      invariant forall k :: i <= k < |carry| ==> carry[k] == evidence[k]
    {
      if carry[i].kind == UsageObserved && carry[i].usage.Some? && carry[i].usage.value.kind == TurnEndedUsage {
        carry := carry[i := carry[i].(usage := Some(carry[i].usage.value.(carried := true)))];
        found := true;
      }
    }
    if !found {
      carry := carry + [EMPTY_TURN_EVENT];
    }
    assert found <==> exists e :: e in evidence && IsTurnEnd(e);
  }

  function Carried(turns: seq<UsageObservation>): seq<UsageObservation> {
    seq(|turns|, i requires 0 <= i < |turns| => turns[i].(carried := true))
  }

  lemma {:induction false} EvidenceKeepsTurns(events: seq<Event>)
    ensures TurnEnds(UsageEvidence(events)) == TurnEnds(events)
  {
    if events != [] {
      var last := events[|events| - 1];
      var before := UsageEvidence(events[..|events| - 1]);
      EvidenceKeepsTurns(events[..|events| - 1]);
      if IsUsageEvidence(last) {
        assert (before + [CloneEvent(last)])[..|before|] == before;
      } else {
        assert before == UsageEvidence(events);
      }
    }
  }

  lemma {:induction false} TurnEndsAreEvents(events: seq<Event>)
    ensures (exists e :: e in events && IsTurnEnd(e)) <==> TurnEnds(events) != []
  {
    hide IsTurnEnd;
    if events != [] {
      var (before, last) := (events[..|events| - 1], events[|events| - 1]);
      TurnEndsAreEvents(before);
      assert forall e :: e in events <==> e in before || e == last;
    }
  }

  lemma {:induction false} MarkedTurns(evidence: seq<Event>, marked: seq<Event>)
    requires |marked| == |evidence| && forall i :: 0 <= i < |evidence| ==> marked[i] == MarkCarried(evidence[i])
    ensures TurnEnds(marked) == Carried(TurnEnds(evidence))
  {
    if evidence != [] {
      MarkedTurns(evidence[..|evidence| - 1], marked[..|marked| - 1]);
    }
  }

  lemma {:induction false} CarriedCounts(turns: seq<UsageObservation>, c: Counter)
    ensures Sum(Carried(turns), c) == Sum(turns, c)
    ensures forall o :: o in turns ==> o.(carried := true) in Carried(turns)
    ensures forall o :: o in Carried(turns) ==> exists p :: p in turns && o == p.(carried := true)
  {
    forall o | o in turns
      ensures o.(carried := true) in Carried(turns)
    {
      var i :| 0 <= i < |turns| && turns[i] == o;
      assert Carried(turns)[i] == o.(carried := true);
    }
    if turns != [] {
      CarriedCounts(turns[..|turns| - 1], c);
      assert Carried(turns)[..|turns| - 1] == Carried(turns[..|turns| - 1]);
    }
  }

  lemma CarryTurns(events: seq<Event>)
    ensures TurnEnds(MeteredCarry(events)) == if TurnEnds(events) != [] then Carried(TurnEnds(events)) else [EMPTY_TURN]
  {
    hide UsageEvidence, IsTurnEnd, MarkCarried;
    var evidence := UsageEvidence(events);
    var marked := seq(|evidence|, i requires 0 <= i < |evidence| => MarkCarried(evidence[i]));
    EvidenceKeepsTurns(events);
    TurnEndsAreEvents(evidence);
    MarkedTurns(evidence, marked);
    if TurnEnds(events) == [] {
      var carry := MeteredCarry(events);
      assert carry == marked + [EMPTY_TURN_EVENT] && carry[..|carry| - 1] == marked;
      assert IsTurnEnd(EMPTY_TURN_EVENT) by { EmptyTurnEnds(); }
      assert TurnEnds(carry) == [] + [EMPTY_TURN];
    }
  }

  lemma EmptyTurnEnds()
    ensures IsTurnEnd(EMPTY_TURN_EVENT)
  {}

  // A carry keeps every completed turn's counters, reports none of them as this
  // run's own terminal, and poisons later sums when nothing was reported.
  lemma CarryKeepsSums(events: seq<Event>, c: Counter)
    ensures TurnEnds(MeteredCarry(events)) ==
            if TurnEnds(events) != [] then Carried(TurnEnds(events)) else [EMPTY_TURN]
    ensures TurnEnds(events) != [] ==> Sum(TurnEnds(MeteredCarry(events)), c) == Sum(TurnEnds(events), c)
    ensures TurnEnds(events) == [] ==> !Measurable(Get(Total(TurnEnds(MeteredCarry(events))), c))
    ensures !FoldFacts(NewFacts(true), MeteredCarry(events)).freshTerminal
  {
    hide FoldFacts, MeteredCarry, AddTurns, Sum;
    CarryTurns(events);
    CarriedCounts(TurnEnds(events), c);
    MeteredTerminalIsTotal(MeteredCarry(events));
  }
}
