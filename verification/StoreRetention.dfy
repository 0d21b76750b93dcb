// Completed snapshots over every run of the store.
module StoreRetention {
  import opened Events
  import opened Strings
  import opened ToolIds
  import opened StateSnapshots
  import opened PendingIndexes
  import opened CompletedSnapshots
  import opened StateStores
  import opened StoreRuns
  import E = EventSnapshots
  import J = Json

  // What a call may do to the completed snapshots.
  ghost predicate Keeps(st: Store, next: Store) {
    && next.now >= st.now && next.ttl == st.ttl
    && (Past(st.completed, st.now) ==> Past(next.completed, next.now) && Retains(st.completed, next.completed, next.now, st.ttl))
  }

  lemma SameCompletedKeeps(st: Store, next: Store)
    requires next.now >= st.now && next.ttl == st.ttl && next.completed == st.completed
    ensures Keeps(st, next)
  {
    hide Normalize;
  }

  lemma GoneKeeps(st: Store, next: Store)
    requires next.now >= st.now && next.ttl == st.ttl && OnlyExpiredGone(st.completed, next.completed, st.now, st.ttl)
    ensures Keeps(st, next)
  {
    hide OnlyExpiredGone, Normalize;
    if Past(st.completed, st.now) {
      OnlyExpiredGoneRetains(st.completed, next.completed, st.now, st.ttl);
    }
  }

  lemma {:induction false} PruneStatesKeepsRest(st: Store, order: seq<string>)
    ensures var p := PruneStates(st, order).0; p == st.(states := p.states, index := p.index)
  {
    hide StateExpired, Sync;
    if order != [] {
      PruneStatesKeepsRest(st, order[..|order| - 1]);
    }
  }

  lemma PruneExpiredGone(st: Store, due: bool, order: seq<string>, completedOrder: seq<string>)
    ensures var p := PruneExpired(st, due, order, completedOrder).0;
            p.now == st.now && p.ttl == st.ttl && p.leases == st.leases && p.nextHandle == st.nextHandle
            && OnlyExpiredGone(st.completed, p.completed, st.now, st.ttl)
  {
    hide PruneStates, Prune;
    PruneStatesKeepsRest(st, order);
    PruneKeeps(st.completed, st.now, st.ttl, completedOrder);
  }

  lemma ClaimLeasedKeepsCompleted(st: Store, session: string, conversation: string, fp: string, opt: ClaimOptions,
      token: string, billingUuid: string)
    ensures var c := ClaimLeased(st, session, conversation, fp, opt, token, billingUuid).0;
            c.completed == st.completed && c.now == st.now && c.ttl == st.ttl
  {
    hide Prepare, ClaimSync, StateExpired, LookupHistory, Sync;
  }

  // What is gone after a call had expired.
  predicate Gone(st: Store, next: Store) {
    next.now == st.now && next.ttl == st.ttl && OnlyExpiredGone(st.completed, next.completed, st.now, st.ttl)
  }

  lemma ClaimGone(st: Store, call: Call)
    requires call.ClaimCall?
    ensures Gone(st, Claim(st, call.session, call.conversation, call.fingerprint, call.opt, call.token,
        call.billingUuid, call.order, call.completedOrder, call.due).0)
  {
    hide PruneExpired, ClaimLeased, Trim, OnlyExpiredGone;
    PruneExpiredGone(st, call.due, call.order, call.completedOrder);
    var pruned := PruneExpired(st, call.due, call.order, call.completedOrder).0;
    ClaimLeasedKeepsCompleted(pruned, Trim(call.session), Trim(call.conversation), Trim(call.fingerprint), call.opt,
        call.token, call.billingUuid);
  }

  lemma SaveCompletedKeeps(st: Store, o: Owner, results: seq<ToolResult>, events: seq<Event>, ephemeral: bool,
      followUp: string)
    ensures Keeps(st, SaveCompleted(st, o, results, events, ephemeral, followUp).0)
    ensures var (next, done) := SaveCompleted(st, o, results, events, ephemeral, followUp); done != Ok ==> next == st
  {
    hide CanonicalResults, Write, Owns, E.Fill, Past, Retains, Normalize, Trim, Digest;
    var next := SaveCompleted(st, o, results, events, ephemeral, followUp).0;
    if next.completed == st.completed {
      SameCompletedKeeps(st, next);
    } else if Past(st.completed, st.now) {
      OwnerHasRecord(st, o);
      var canonical := CanonicalResults(results);
      var t := CompletedRecord(st.states[o.session], o, canonical.results, E.Fill(events).value.events, ephemeral,
          followUp, st.now);
      BatchIdsAreBatch(canonical.results);
      WriteRetains(st.completed, t, st.now, st.ttl);
    }
  }

  lemma SaveHistoryKeeps(st: Store, o: Owner, key: string, events: seq<Event>)
    ensures Keeps(st, SaveHistory(st, o, key, events).0)
  {
    hide WriteHistory, Owns, E.Fill, Past, Retains, Visible;
    var next := SaveHistory(st, o, key, events).0;
    if next.completed == st.completed {
      SameCompletedKeeps(st, next);
    } else if Past(st.completed, st.now) {
      var handoff := exists e :: e in events && e.kind == ToolCallEvent;
      WriteHistoryRetains(st.completed, HistoryRecord(o, key, E.Fill(events).value.events, handoff, st.now), st.now, st.ttl);
    }
  }

  lemma FindGone(st: Store, fp: string, results: seq<ToolResult>, followUp: string, completedOrder: seq<string>, due: bool)
    ensures Gone(st, StateStores.FindCompleted(st, fp, results, followUp, completedOrder, due).0)
  {
    hide CanonicalResults, Prune, LookupCompleted, Trim, OnlyExpiredGone;
    var pruned := if due then Prune(st.completed, st.now, st.ttl, completedOrder) else st.completed;
    PruneKeeps(st.completed, st.now, st.ttl, completedOrder);
    NothingGone(st.completed, st.now, st.ttl);
    LookupKeeps(pruned, st.now, st.ttl, fp, results, followUp);
    GoneComposes(st.completed, pruned, LookupCompleted(pruned, st.now, st.ttl, fp, results, followUp).0, st.now, st.ttl);
  }

  lemma NothingGone(c: Completed, now: Time, ttl: nat)
    ensures OnlyExpiredGone(c, c, now, ttl)
  {}

  lemma GoneComposes(c: Completed, d: Completed, e: Completed, now: Time, ttl: nat)
    requires OnlyExpiredGone(c, d, now, ttl) && OnlyExpiredGone(d, e, now, ttl)
    ensures OnlyExpiredGone(c, e, now, ttl)
  {
    hide Expired;
  }

  lemma ResolveGone(st: Store, fp: string, ids: seq<string>, order: seq<string>, completedOrder: seq<string>, due: bool)
    ensures Gone(st, ResolvePending(st, fp, ids, order, completedOrder, due).0)
  {
    hide PruneExpired, Resolve, Trim, Normalize, OnlyExpiredGone;
    PruneExpiredGone(st, due, order, completedOrder);
    NothingGone(st.completed, st.now, st.ttl);
  }

  lemma OpenGone(st: Store, order: seq<string>, completedOrder: seq<string>)
    ensures Gone(st, Open(st, order, completedOrder).0)
  {
    hide PruneExpired, Rebuild, OnlyExpiredGone;
    PruneExpiredGone(st, true, order, completedOrder);
  }

  lemma OtherCallsKeep(st: Store, call: Call)
    requires !call.CompletedCall? && !call.HistoryCall?
    ensures var c := Call1(st, call).0; c.completed == st.completed && c.now == st.now && c.ttl == st.ttl
  {
    hide Owns, Sync, ValidPending, NextBatch, Trim;
  }

  // Only the two saves write completed snapshots.
  lemma {:induction false} StepGone(w: World, call: Call)
    requires !call.CompletedCall? && !call.HistoryCall?
    ensures var (st, next) := (w.store, Step(w, call).store);
            next.now >= st.now && next.ttl == st.ttl && OnlyExpiredGone(st.completed, next.completed, st.now, st.ttl)
    decreases call
  {
    hide OnlyExpiredGone, Open, Claim, Release, ResolvePending, StateStores.FindCompleted, PendingWrite, SavePending,
        Call1, Owns, ValidPending;
    var st := w.store;
    NothingGone(st.completed, st.now, st.ttl);
    match call {
      case OpenCall(order, completedOrder) => OpenGone(st, order, completedOrder);
      case ClaimCall(_, _, _, _, _, _, _, _, _) => ClaimGone(st, call);
      case ResolveCall(fp, ids, order, completedOrder, due) => ResolveGone(st, fp, ids, order, completedOrder, due);
      case FindCall(fp, results, followUp, completedOrder, due) => FindGone(st, fp, results, followUp, completedOrder, due);
      case PendingCall(o, pending) =>
        OtherCallsKeep(st, call);
        PendingIsCall1(st, o, pending);
      case ReleaseCall(o) => ReleaseKeepsRest(st, o);
      case DiesIn(inner, left) =>
        if UpdatesIndex(inner) {
          StepGone(w, inner);
        }
      case Tick(_) =>
      case Dies(_) =>
      case _ => OtherCallsKeep(st, call);
    }
  }

  // Whatever is called, an unexpired completed snapshot keeps its content, and a
  // record that goes or is replaced had outlived its own retention.
  lemma StepKeeps(w: World, call: Call)
    ensures Keeps(w.store, Step(w, call).store)
  {
    hide Keeps, Step, Call1;
    var st := w.store;
    match call {
      case CompletedCall(o, results, events, ephemeral, followUp) =>
        SaveIsStep(w, call);
        SaveCompletedKeeps(st, o, results, events, ephemeral, followUp);
      case HistoryCall(o, key, events) =>
        SaveIsStep(w, call);
        SaveHistoryKeeps(st, o, key, events);
      case _ =>
        StepGone(w, call);
        GoneKeeps(st, Step(w, call).store);
    }
  }

  lemma SaveIsStep(w: World, call: Call)
    ensures call.CompletedCall? ==>
              Step(w, call).store == SaveCompleted(w.store, call.owner, call.results, call.events, call.ephemeral, call.followUp).0
    ensures call.HistoryCall? ==> Step(w, call).store == SaveHistory(w.store, call.owner, call.key, call.events).0
  {
    hide SaveCompleted, SaveHistory;
  }

  lemma ReleaseKeepsRest(st: Store, o: Owner)
    ensures Release(st, o) == st.(leases := Release(st, o).leases)
  {}

  lemma PendingIsCall1(st: Store, o: Owner, pending: seq<PendingTool>)
    ensures Call1(st, PendingCall(o, pending)) == SavePending(st, o, pending)
  {
    hide SavePending;
  }

  // ---------------------------------------------------------------------
  // Until its own retention has passed
  // ---------------------------------------------------------------------

  // The snapshot t is there, as it was stored or refreshed since.
  predicate Holds(st: Store, key: string, t: Tombstone) {
    && key in st.completed.records && SameContent(t, st.completed.records[key])
    && t.updatedAt <= st.completed.records[key].updatedAt
  }

  // Before the i-th call it was there, and when that call was over its own
  // retention had passed.
  predicate OutlivedAt(w: World, calls: seq<Call>, key: string, i: nat)
    requires key in w.store.completed.records && i < |calls|
  {
    var st := Run(w, calls[..i]).store;
    && Holds(st, key, w.store.completed.records[key])
    && Expired(st.completed.records[key], Run(w, calls[..i + 1]).store.now, st.ttl)
  }

  lemma {:induction false} RunKeepsClock(w: World, calls: seq<Call>)
    requires Past(w.store.completed, w.store.now)
    ensures var st := Run(w, calls).store; Past(st.completed, st.now) && st.now >= w.store.now && st.ttl == w.store.ttl
  {
    hide Step, Past, Retains;
    if calls != [] {
      RunKeepsClock(w, calls[..|calls| - 1]);
      StepKeeps(Run(w, calls[..|calls| - 1]), calls[|calls| - 1]);
    }
  }

  // Through any run a completed snapshot keeps its events, results, billing run,
  // session and conversation, unless the record has outlived its own retention.
  lemma {:induction false} SnapshotsAreKept(w: World, calls: seq<Call>, key: string)
    requires Past(w.store.completed, w.store.now) && key in w.store.completed.records
    ensures || Holds(Run(w, calls).store, key, w.store.completed.records[key])
            || exists i :: 0 <= i < |calls| && OutlivedAt(w, calls, key, i)
  {
    hide Step, Normalize, Past;
    if calls != [] {
      var (n, t) := (|calls| - 1, w.store.completed.records[key]);
      var before := Run(w, calls[..n]);
      SnapshotsAreKept(w, calls[..n], key);
      if Holds(before.store, key, t) {
        RunKeepsClock(w, calls[..n]);
        StepKeeps(before, calls[n]);
        assert calls[..n + 1] == calls;
        assert Expired(before.store.completed.records[key], Run(w, calls).store.now, before.store.ttl) ==> OutlivedAt(w, calls, key, n);
      } else {
        var i :| 0 <= i < n && OutlivedAt(w, calls[..n], key, i);
        OutlivedEarlier(w, calls, key, n, i);
      }
    }
  }

  lemma OutlivedEarlier(w: World, calls: seq<Call>, key: string, n: nat, i: nat)
    requires key in w.store.completed.records && i < n <= |calls| && OutlivedAt(w, calls[..n], key, i)
    ensures OutlivedAt(w, calls, key, i)
  {
    hide Holds, Expired;
    assert calls[..n][..i] == calls[..i] && calls[..n][..i + 1] == calls[..i + 1];
  }

  // ---------------------------------------------------------------------
  // The retention it was first stored with
  // ---------------------------------------------------------------------

  // A save that shortens the life of the record under the key: it is accepted and
  // ephemeral.
  predicate MakesEphemeral(st: Store, call: Call, key: string) {
    && call.CompletedCall? && call.ephemeral && CanonicalResults(call.results).Results?
    && SaveCompleted(st, call.owner, call.results, call.events, call.ephemeral, call.followUp).1 == Ok
    && key == ResultKey(call.owner.fingerprint, BatchIds(CanonicalResults(call.results).results), call.followUp)
  }

  // No call of the run is such a save.
  predicate Plain(w: World, calls: seq<Call>, key: string) {
    calls == [] || (&& Plain(w, calls[..|calls| - 1], key)
                    && !MakesEphemeral(Run(w, calls[..|calls| - 1]).store, calls[|calls| - 1], key))
  }

  // While it lives, a record turns ephemeral by such a save, and only by it.
  predicate FlagKept(st: Store, next: Store, key: string, made: bool) {
    key in st.completed.records && !Expired(st.completed.records[key], next.now, st.ttl) && key in next.completed.records ==>
      (next.completed.records[key].ephemeral <==> st.completed.records[key].ephemeral || made)
  }

  lemma SaveCompletedFlags(st: Store, call: Call, key: string)
    requires call.CompletedCall?
    ensures var next := SaveCompleted(st, call.owner, call.results, call.events, call.ephemeral, call.followUp).0;
            FlagKept(st, next, key, MakesEphemeral(st, call, key))
  {
    hide CanonicalResults, Owns, E.Fill, Normalize, Trim, Digest, ResultKey, WritePointers, Expired;
    var canonical := CanonicalResults(call.results);
    if canonical.Results? && Owns(st, call.owner) && E.Fill(call.events).Some? {
      TrimmedFollowUp(call.owner.fingerprint, BatchIds(canonical.results), call.followUp);
    }
  }

  // The record stores the follow-up trimmed; its key is the same.
  lemma TrimmedFollowUp(fp: string, batch: seq<string>, followUp: string)
    ensures ResultKey(fp, batch, Trim(followUp)) == ResultKey(fp, batch, followUp)
  {
    hide Trim, Joined;
    TrimStrips(followUp);
    TrimStrips(Trim(followUp));
  }

  lemma SaveHistoryFlags(st: Store, o: Owner, key: string, events: seq<Event>, file: string)
    ensures FlagKept(st, SaveHistory(st, o, key, events).0, file, false)
  {
    hide Owns, E.Fill, Visible, HistoryKey;
  }

  lemma StepFlags(w: World, call: Call, key: string)
    ensures FlagKept(w.store, Step(w, call).store, key, MakesEphemeral(w.store, call, key))
  {
    hide FlagKept, Step, SaveCompleted;
    match call {
      case CompletedCall(_, _, _, _, _) =>
        SaveIsStep(w, call);
        SaveCompletedFlags(w.store, call, key);
      case HistoryCall(o, k, events) =>
        SaveIsStep(w, call);
        SaveHistoryFlags(w.store, o, k, events, key);
      case _ =>
        StepGone(w, call);
        GoneFlags(w.store, Step(w, call).store, key);
    }
  }

  lemma GoneFlags(st: Store, next: Store, key: string)
    requires OnlyExpiredGone(st.completed, next.completed, st.now, st.ttl)
    ensures FlagKept(st, next, key, false)
  {
    hide Expired;
  }

  function Keep(t: Tombstone, ttl: nat): nat {
    if t.ephemeral then COMPLETED_TTL else ttl
  }

  // Whenever a has expired, b has.
  predicate Outlasts(a: Tombstone, b: Tombstone, ttl: nat) {
    Keep(a, ttl) == 0 || (Keep(b, ttl) > 0 && b.updatedAt + Keep(b, ttl) <= a.updatedAt + Keep(a, ttl))
  }

  // The snapshot t is there, and a lookup may answer with it.
  predicate Served(st: Store, key: string, t: Tombstone) {
    Holds(st, key, t) && !Expired(st.completed.records[key], st.now, st.ttl)
  }

  predicate Lasting(st: Store, key: string, t: Tombstone) {
    Expired(t, st.now, st.ttl) || (Holds(st, key, t) && Outlasts(st.completed.records[key], t, st.ttl))
  }

  lemma StepLasts(w: World, call: Call, key: string, t: Tombstone)
    requires Past(w.store.completed, w.store.now) && t.updatedAt != ZERO_TIME && Lasting(w.store, key, t)
    requires t.ephemeral || !MakesEphemeral(w.store, call, key)
    ensures Lasting(Step(w, call).store, key, t)
  {
    hide Step, MakesEphemeral, Normalize;
    StepKeeps(w, call);
    StepFlags(w, call, key);
  }

  lemma {:induction false} RunLasts(w: World, calls: seq<Call>, key: string, t: Tombstone)
    requires Past(w.store.completed, w.store.now) && t.updatedAt != ZERO_TIME && Lasting(w.store, key, t)
    requires t.ephemeral || Plain(w, calls, key)
    ensures Lasting(Run(w, calls).store, key, t)
  {
    hide Step, Lasting, Past, MakesEphemeral;
    if calls != [] {
      RunLasts(w, calls[..|calls| - 1], key, t);
      RunKeepsClock(w, calls[..|calls| - 1]);
      StepLasts(Run(w, calls[..|calls| - 1]), calls[|calls| - 1], key, t);
    }
  }

  lemma LastingIsServed(st: Store, key: string, t: Tombstone)
    requires t.updatedAt != ZERO_TIME && Lasting(st, key, t)
    ensures Expired(t, st.now, st.ttl) || Served(st, key, t)
  {
    hide SameContent;
  }

  // Without an ephemeral save of its key, a snapshot is served for the whole
  // retention it was first stored with, whoever saves and prunes.  The store stamps
  // every record it writes.
  lemma FirstRetentionHolds(w: World, calls: seq<Call>, key: string)
    requires Past(w.store.completed, w.store.now) && key in w.store.completed.records
    requires var t := w.store.completed.records[key]; t.updatedAt != ZERO_TIME && (t.ephemeral || Plain(w, calls, key))
    ensures var (st, t) := (Run(w, calls).store, w.store.completed.records[key]);
            Expired(t, st.now, st.ttl) || Served(st, key, t)
  {
    hide Run, Plain, Past, Normalize;
    var t := w.store.completed.records[key];
    RunLasts(w, calls, key, t);
    LastingIsServed(Run(w, calls).store, key, t);
  }

  // Whatever comes, except further ephemeral saves of the key, the snapshot t is
  // served until the retention of t has passed.
  ghost predicate Promised(w: World, key: string, t: Tombstone) {
    forall more :: Plain(w, more, key) ==>
      var st := Run(w, more).store;
      Expired(t, st.now, st.ttl) || Served(st, key, t)
  }

  lemma PromisedIffOutlasts(w: World, key: string, t: Tombstone)
    requires Past(w.store.completed, w.store.now) && t.updatedAt != ZERO_TIME && Holds(w.store, key, t)
    requires !Expired(t, w.store.now, w.store.ttl)
    ensures Promised(w, key, t) <==> Outlasts(w.store.completed.records[key], t, w.store.ttl)
  {
    hide Plain, Run, Past, SameContent;
    if Outlasts(w.store.completed.records[key], t, w.store.ttl) {
      forall more | Plain(w, more, key)
        ensures var st := Run(w, more).store; Expired(t, st.now, st.ttl) || Served(st, key, t)
      {
        RunLasts(w, more, key, t);
        LastingIsServed(Run(w, more).store, key, t);
      }
    } else {
      var rec := w.store.completed.records[key];
      var over := rec.updatedAt + Keep(rec, w.store.ttl) + 1;
      var more := if over <= w.store.now then [] else [Tick(over - w.store.now)];
      OnlyTicks(w, if over <= w.store.now then 0 else over - w.store.now, key);
      assert Plain(w, more, key) && Expired(rec, Run(w, more).store.now, w.store.ttl);
    }
  }

  lemma OnlyTicks(w: World, elapsed: nat, key: string)
    ensures Plain(w, [], key) && Run(w, []) == w
    ensures Plain(w, [Tick(elapsed)], key) && Run(w, [Tick(elapsed)]) == w.(store := w.store.(now := w.store.now + elapsed))
  {
    var more := [Tick(elapsed)];
    assert more[..|more| - 1] == [] && more[|more| - 1] == Tick(elapsed);
    assert Plain(w, more[..0], key) && Run(w, more[..0]) == w;
    assert !MakesEphemeral(w.store, more[0], key);
    assert Step(w, Tick(elapsed)) == w.(store := w.store.(now := w.store.now + elapsed));
  }

  // The record has not outlived its own retention during the run.
  predicate Unbroken(w: World, calls: seq<Call>, key: string) {
    calls == [] ||
    (var st := Run(w, calls[..|calls| - 1]).store;
     && Unbroken(w, calls[..|calls| - 1], key)
     && key in st.completed.records && !Expired(st.completed.records[key], Run(w, calls).store.now, st.ttl))
  }

  lemma {:induction false} RunFlags(w: World, calls: seq<Call>, key: string)
    requires Past(w.store.completed, w.store.now) && key in w.store.completed.records && Unbroken(w, calls, key)
    ensures var (st, t) := (Run(w, calls).store, w.store.completed.records[key]);
            Holds(st, key, t) && (st.completed.records[key].ephemeral <==> t.ephemeral || !Plain(w, calls, key))
  {
    hide Step, MakesEphemeral, Normalize, Past;
    if calls != [] {
      var (before, call) := (Run(w, calls[..|calls| - 1]), calls[|calls| - 1]);
      RunFlags(w, calls[..|calls| - 1], key);
      RunKeepsClock(w, calls[..|calls| - 1]);
      StepKeeps(before, call);
      StepFlags(before, call, key);
    }
  }

  // At any point of a run during which the record has not outlived its retention,
  // the snapshot is promised for the retention it was first stored with if and only
  // if it was ephemeral already, or no ephemeral save of its key was accepted, or
  // its latest save was so late that five minutes from there reach as far.
  lemma FirstRetentionIff(w: World, calls: seq<Call>, key: string)
    requires Past(w.store.completed, w.store.now) && key in w.store.completed.records && Unbroken(w, calls, key)
    requires var (st, t) := (Run(w, calls).store, w.store.completed.records[key]);
             t.updatedAt != ZERO_TIME && !Expired(t, st.now, st.ttl)
    ensures var (st, t) := (Run(w, calls).store, w.store.completed.records[key]);
            && key in st.completed.records
            && (Promised(Run(w, calls), key, t) <==>
                  || t.ephemeral || Plain(w, calls, key)
                  || (0 < st.ttl && t.updatedAt + st.ttl <= st.completed.records[key].updatedAt + COMPLETED_TTL))
  {
    hide Run, Plain, Promised, Unbroken, Past, Normalize;
    RunFlags(w, calls, key);
    RunKeepsClock(w, calls);
    PromisedIffOutlasts(Run(w, calls), key, w.store.completed.records[key]);
  }

  // ---------------------------------------------------------------------
  // A durable snapshot that goes after five minutes
  // ---------------------------------------------------------------------

  function SavedRecord(st: Store, o: Owner, results: seq<ToolResult>, events: seq<Event>, ephemeral: bool,
      followUp: string): Tombstone
    requires Owns(st, o) && CanonicalResults(results).Results? && E.Fill(events).Some?
  {
    CompletedRecord(st.states[o.session], o, CanonicalResults(results).results, E.Fill(events).value.events, ephemeral,
        followUp, st.now)
  }

  lemma FirstSave(st: Store, o: Owner, results: seq<ToolResult>, events: seq<Event>, followUp: string)
    requires Owns(st, o) && CanonicalResults(results).Results? && E.Fill(events).Some?
    requires ResultKey(o.fingerprint, BatchIds(CanonicalResults(results).results), followUp) !in st.completed.records
    ensures var (next, done) := SaveCompleted(st, o, results, events, false, followUp);
            var key := ResultKey(o.fingerprint, BatchIds(CanonicalResults(results).results), followUp);
            && done == Ok && Owns(next, o) && next.now == st.now && next.ttl == st.ttl
            && key in next.completed.records
            && next.completed.records[key] == SavedRecord(st, o, results, events, false, followUp)
  {
    hide CanonicalResults, E.Fill, ResultKey, BatchIds, Digest, Trim, WritePointers, Normalize;
    TrimmedFollowUp(o.fingerprint, BatchIds(CanonicalResults(results).results), followUp);
  }

  lemma SecondSave(st: Store, o: Owner, results: seq<ToolResult>, events: seq<Event>, followUp: string, t: Tombstone)
    requires Owns(st, o) && CanonicalResults(results).Results? && E.Fill(events).Some?
    requires var key := ResultKey(o.fingerprint, BatchIds(CanonicalResults(results).results), followUp);
             key in st.completed.records && st.completed.records[key] == t
    requires t.fingerprint == o.fingerprint && t.followUp == Trim(followUp)
    requires t.batchIds == BatchIds(CanonicalResults(results).results) && t.digest == Digest(CanonicalResults(results).results)
    ensures var (next, done) := SaveCompleted(st, o, results, events, true, followUp);
            var key := ResultKey(o.fingerprint, BatchIds(CanonicalResults(results).results), followUp);
            && done == Ok && next.now == st.now && next.ttl == st.ttl
            && key in next.completed.records
            && next.completed.records[key].ephemeral && next.completed.records[key].updatedAt == st.now
  {
    hide CanonicalResults, E.Fill, ResultKey, Digest, Trim, WritePointers, Normalize;
    var canonical := CanonicalResults(results).results;
    TrimmedFollowUp(o.fingerprint, BatchIds(canonical), followUp);
    BatchIdsAreBatch(canonical);
    NormalizeIsIdempotent(BatchIds(canonical));
  }

  function SaveTwice(o: Owner, results: seq<ToolResult>, events: seq<Event>, followUp: string): seq<Call> {
    [CompletedCall(o, results, events, false, followUp), CompletedCall(o, results, events, true, followUp), Tick(COMPLETED_TTL + 1)]
  }

  lemma RunThree(w: World, calls: seq<Call>)
    requires |calls| == 3
    ensures Run(w, calls[..1]) == Step(w, calls[0]) && Run(w, calls) == Step(Step(Step(w, calls[0]), calls[1]), calls[2])
  {
    hide Step;
    assert calls[..1][..0] == [] && calls[..2][..1] == calls[..1];
    assert Run(w, []) == w;
    assert Run(w, calls[..2]) == Step(Run(w, calls[..1]), calls[1]);
  }

  // Saved for 30 days, say, and saved again as ephemeral: five minutes later it is
  // pruned, long before the retention it was stored with has passed.
  lemma EphemeralSaveShortens(w: World, o: Owner, results: seq<ToolResult>, events: seq<Event>, followUp: string)
    requires Owns(w.store, o) && CanonicalResults(results).Results? && E.Fill(events).Some?
    requires w.store.now > 0 && (w.store.ttl == 0 || w.store.ttl > COMPLETED_TTL)
    requires ResultKey(o.fingerprint, BatchIds(CanonicalResults(results).results), followUp) !in w.store.completed.records
    ensures var calls := SaveTwice(o, results, events, followUp);
            var key := ResultKey(o.fingerprint, BatchIds(CanonicalResults(results).results), followUp);
            var (first, end) := (Run(w, calls[..1]).store, Run(w, calls).store);
            && key in first.completed.records
            && !Expired(first.completed.records[key], end.now, end.ttl)
            && key !in Prune(end.completed, end.now, end.ttl, [key]).records
  {
    hide Step, SaveCompleted, CanonicalResults, E.Fill, ResultKey, BatchIds, Digest, Run, Owns;
    var calls := SaveTwice(o, results, events, followUp);
    RunThree(w, calls);
    SaveIsStep(w, calls[0]);
    FirstSave(w.store, o, results, events, followUp);
    var w1 := Step(w, calls[0]);
    SaveIsStep(w1, calls[1]);
    SecondSave(w1.store, o, results, events, followUp, SavedRecord(w.store, o, results, events, false, followUp));
    var w2 := Step(w1, calls[1]);
    TickOnly(w2, COMPLETED_TTL + 1);
    PruneOne(Run(w, calls).store, ResultKey(o.fingerprint, BatchIds(CanonicalResults(results).results), followUp));
  }

  lemma TickOnly(w: World, elapsed: nat)
    ensures Step(w, Tick(elapsed)) == w.(store := w.store.(now := w.store.now + elapsed))
  {}

  lemma PruneOne(st: Store, key: string)
    requires key in st.completed.records && Expired(st.completed.records[key], st.now, st.ttl)
    ensures key !in Prune(st.completed, st.now, st.ttl, [key]).records
  {
    hide Trim, Normalize, RemovePointers;
    assert [key][..0] == [];
  }

  // It can happen to the first results of any session.
  const A_RESULT := ToolResult("a", "x", false, None)

  const AN_OWNER := Owner("", "s", 1, "token", "account", "c", "b", 0)

  // One session under its lease, and a store that keeps what it saves for 30 days.
  const A_WORLD := World(
    Store(30 * 24 * 12 * COMPLETED_TTL, 1,
          map["s" := NewSnapshot("s", "c").(fingerprint := "account", generation := 1, token := "token", updatedAt := 1)],
          Index(map[], map[]), Completed(map[], map[]), map[0 := "s"], 1),
    [AN_OWNER], {"token"}, false)

  lemma OneResult()
    ensures CanonicalResults([A_RESULT]) == Results([A_RESULT])
  {
    TrimStrips("a");
    var results := [A_RESULT];
    assert results[..0] == [] && [] + results == results;
    assert "a"[..0] == "" && "x"[..0] == "";
    assert ResultBytes(results) == ResultBytes(results[..0]) + J.Size("a") + J.Size("x") + MediaBytes(Media(A_RESULT));
    assert J.Size("a") == 1 && J.Size("x") == 1;
    assert Trimming(results) == Results(results);
    assert SortResults(results) == results;
  }

  lemma NoEventsFit()
    ensures E.Fill([]).Some?
  {}

  lemma OwnerOwns()
    ensures Owns(A_WORLD.store, AN_OWNER)
  {
    TrimStrips("s");
    TrimStrips("token");
  }

  lemma DurableSnapshotGoesEarly()
    ensures var calls := SaveTwice(AN_OWNER, [A_RESULT], [], "");
            var (first, end) := (Run(A_WORLD, calls[..1]).store, Run(A_WORLD, calls).store);
            var key := ResultKey("account", BatchIds([A_RESULT]), "");
            && key in first.completed.records
            && !Expired(first.completed.records[key], end.now, end.ttl)
            && key !in Prune(end.completed, end.now, end.ttl, [key]).records
  {
    hide Run, CanonicalResults, E.Fill, ResultKey, BatchIds, Prune, Owns, Expired, SaveTwice;
    OneResult();
    OwnerOwns();
    NoEventsFit();
    EphemeralSaveShortens(A_WORLD, AN_OWNER, [A_RESULT], [], "");
  }
}
