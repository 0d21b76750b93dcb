// The tool pointers over every run of the store, and what ResolvePending answers
// for results that were submitted together with others.
module StorePointers {
  import opened Events
  import opened Strings
  import opened ToolIds
  import opened StateSnapshots
  import opened PendingIndexes
  import opened CompletedSnapshots
  import opened StateStores
  import opened StoreRuns
  import E = EventSnapshots
  import U = Usages

  // The batch a session of an account waits for is equal to, or disjoint from,
  // every batch that a record of the account names: one that waits, or one that
  // claims anew what it no longer waits for.
  predicate RecordedApart(states: map<string, Snapshot>) {
    forall a, b :: a in states && b in states && Meets(states[a], states[b]) ==> Apart(Batch(states[a]), Batch(states[b]))
  }

  predicate Meets(a: Snapshot, b: Snapshot) {
    a.pending != [] && a.fingerprint == b.fingerprint && (b.pending != [] || b.batchIds != [])
  }

  lemma RecordedIsWaiting(states: map<string, Snapshot>)
    requires RecordedApart(states)
    ensures BatchesApart(states)
  {
    hide Batch, Apart;
    forall a, b | a in states && b in states && BothWait(states[a], states[b])
      ensures Apart(Batch(states[a]), Batch(states[b]))
    {
      assert Meets(states[a], states[b]);
    }
  }

  // Every waiting session is listed, and its ids point to its batch.
  predicate Indexed(st: Store) {
    InStep(st) && AllPointed(st.index, st.states)
  }

  predicate Kept(x: Index, id: string, s: Snapshot) {
    s.pending != [] && Batch(s) != [] ==> Lists(x, s.fingerprint, Batch(s), id) && Pointed(x, s.fingerprint, Batch(s))
  }

  lemma IndexedKeeps(st: Store)
    ensures Indexed(st) <==> forall id :: id in st.states ==> Kept(st.index, id, st.states[id])
  {
    hide Lists, Batch, Pointed;
    forall id | id in st.states
      ensures Kept(st.index, id, st.states[id]) <==>
                Listed(st.index, id, st.states[id])
                && (st.states[id].pending != [] ==> Pointed(st.index, st.states[id].fingerprint, Batch(st.states[id])))
    {
      if Batch(st.states[id]) == [] {
        EmptyIsPointed(st.index, st.states[id].fingerprint);
      }
    }
  }

  // One index update leaves alone what other sessions wait for.
  lemma SyncKept(x: Index, fp: string, session: string, previous: seq<string>, next: seq<string>, id: string,
      s: Snapshot)
    requires Kept(x, id, s)
    requires (s.fingerprint, Batch(s), id) == (fp, Normalize(previous), session) ==> Normalize(next) == Batch(s)
    requires s.pending != [] && s.fingerprint == fp && Normalize(next) != [] ==> Apart(Batch(s), Normalize(next))
    ensures Kept(Sync(x, fp, session, previous, next).index, id, s)
  {
    hide Sync, Lists, Batch, Pointed, Normalize, Apart;
    if s.pending != [] && Batch(s) != [] {
      SyncKeeps(x, fp, session, previous, next, s.fingerprint, Batch(s), id);
      SyncKeepsPointed(x, fp, session, previous, next, s.fingerprint, Batch(s), id);
    }
  }

  lemma EmptyNext()
    ensures Normalize([]) == []
  {}

  lemma RemoveIndexed(st: Store, id: string)
    requires Indexed(st) && id in st.states
    ensures Indexed(Remove(st, id).0)
  {
    hide Sync, Indexed, Kept, Batch, Normalize;
    IndexedKeeps(st);
    IndexedKeeps(Remove(st, id).0);
    EmptyNext();
    var s := st.states[id];
    forall k | k in st.states && k != id
      ensures Kept(Sync(st.index, s.fingerprint, id, s.batchIds, []).index, k, st.states[k])
    {
      SyncKept(st.index, s.fingerprint, id, s.batchIds, [], k, st.states[k]);
    }
  }

  lemma {:induction false} PruneIndexed(st: Store, order: seq<string>)
    requires Indexed(st)
    ensures Indexed(PruneStates(st, order).0)
  {
    hide Remove, StateExpired, Indexed;
    if order != [] {
      PruneIndexed(st, order[..|order| - 1]);
      var (before, id) := (PruneStates(st, order[..|order| - 1]).0, order[|order| - 1]);
      if id in before.states {
        RemoveIndexed(before, id);
      }
    }
  }

  lemma PruneExpiredIndexed(st: Store, due: bool, order: seq<string>, completedOrder: seq<string>)
    requires Indexed(st)
    ensures Indexed(PruneExpired(st, due, order, completedOrder).0)
  {
    hide PruneStates, Prune, AllListed, AllPointed;
    PruneIndexed(st, order);
  }

  // The claim keeps its own pending tools only under the batch and the account
  // they had.
  lemma ClaimWriteIndexed(st: Store, session: string, before: Snapshot, ready: Prepared, fp: string, token: string)
    requires Indexed(st) && ready.Ready?
    requires ready.snapshot.pending != [] || ready.snapshot.batchIds != [] ==>
               && session in st.states && before == st.states[session] && before.fingerprint == fp
               && ready.snapshot.pending == before.pending && ready.snapshot.batchIds == before.batchIds
    requires RecordedApart(ClaimWrite(st, session, before, ready, fp, token).0.states)
    ensures Indexed(ClaimWrite(st, session, before, ready, fp, token).0)
  {
    hide Sync, Lists, Normalize, Indexed, Kept, Apart, RecordedApart, ClaimSync;
    var s := Owned(ready.snapshot, session, fp, token, st.now);
    var next := ClaimWrite(st, session, before, ready, fp, token).0;
    IndexedKeeps(st);
    IndexedKeeps(next);
    forall id | id in next.states
      ensures Kept(next.index, id, next.states[id])
    {
      if id == session {
        OwnClaimKept(st, session, before, s);
      } else {
        ClaimedApart(next.states, id, session, s);
        ClaimSyncKept(st.index, session, before, s, id, st.states[id]);
      }
    }
  }

  lemma ClaimedApart(states: map<string, Snapshot>, id: string, session: string, s: Snapshot)
    requires RecordedApart(states) && id in states && session in states && states[session] == s
    ensures states[id].pending != [] && states[id].fingerprint == s.fingerprint && s.batchIds != [] ==>
              Apart(Batch(states[id]), Normalize(s.batchIds))
  {
    hide Normalize, Apart;
    assert states[id].pending != [] && states[id].fingerprint == s.fingerprint && s.batchIds != [] ==> Meets(states[id], s);
  }

  lemma ClaimSyncKept(x: Index, session: string, before: Snapshot, after: Snapshot, id: string, s: Snapshot)
    requires Kept(x, id, s) && id != session
    requires s.pending != [] && s.fingerprint == after.fingerprint && after.batchIds != [] ==>
               Apart(Batch(s), Normalize(after.batchIds))
    ensures Kept(ClaimSync(x, session, before, after).index, id, s)
  {
    hide Sync, Kept, Batch, Normalize, Apart;
    EmptyNext();
    SyncKept(x, before.fingerprint, session, before.batchIds, [], id, s);
    var removed := Sync(x, before.fingerprint, session, before.batchIds, []).index;
    if after.batchIds != [] {
      SyncKept(removed, after.fingerprint, session, [], after.batchIds, id, s);
      SyncKept(x, after.fingerprint, session, [], after.batchIds, id, s);
    }
  }

  lemma OwnClaimKept(st: Store, session: string, before: Snapshot, s: Snapshot)
    requires session in st.states ==> Kept(st.index, session, st.states[session])
    requires s.pending != [] || s.batchIds != [] ==>
               && session in st.states && before == st.states[session] && before.fingerprint == s.fingerprint
               && s.pending == before.pending && s.batchIds == before.batchIds
    ensures Kept(ClaimSync(st.index, session, before, s).index, session, s)
  {
    hide Sync, Lists, Pointed, Normalize;
    if s.pending != [] && Batch(s) != [] {
      assert Batch(s) == Batch(before);
      if s.batchIds != [] {
        SyncKept(st.index, s.fingerprint, session, [], s.batchIds, session, s);
      }
    }
  }

  lemma ClaimLeasedIndexed(st: Store, session: string, conversation: string, fp: string, opt: ClaimOptions,
      token: string, billingUuid: string)
    requires Indexed(st) && Accounted(st.states)
    requires RecordedApart(ClaimLeased(st, session, conversation, fp, opt, token, billingUuid).0.states)
    ensures Indexed(ClaimLeased(st, session, conversation, fp, opt, token, billingUuid).0)
  {
    hide Indexed, Remove, Prepare, ClaimWrite, StateExpired, LookupHistory, RecordedApart;
    var expired := session in st.states && StateExpired(st.states[session], st.now, st.ttl);
    var kept := if expired then Remove(st, session).0 else st;
    if expired {
      RemoveIndexed(st, session);
      RemovedStates(st, session);
    }
    var created := session !in kept.states;
    var current := if created then NewSnapshot(session, conversation) else kept.states[session];
    PrepareKeepsBatch(current, created, conversation, fp, opt, billingUuid);
    var ready := Prepare(current, created, conversation, fp, opt, billingUuid);
    if ready.Ready? && ClaimLeased(st, session, conversation, fp, opt, token, billingUuid) == ClaimWrite(kept, session, current, ready, fp, token) {
      ClaimWriteIndexed(kept, session, current, ready, fp, token);
    }
  }

  lemma ClaimIndexed(st: Store, call: Call)
    requires Indexed(st) && Accounted(st.states) && call.ClaimCall?
    requires RecordedApart(ClaimOf(st, call).states)
    ensures Indexed(ClaimOf(st, call))
  {
    hide Indexed, PruneExpired, ClaimLeased, Trim, RecordedApart;
    PruneExpiredIndexed(st, call.due, call.order, call.completedOrder);
    PruneExpiredKeepsRecords(st, call.due, call.order, call.completedOrder);
    var pruned := PruneExpired(st, call.due, call.order, call.completedOrder).0;
    var (session, conversation, fp) := (Trim(call.session), Trim(call.conversation), Trim(call.fingerprint));
    if RecordedApart(ClaimLeased(pruned, session, conversation, fp, call.opt, call.token, call.billingUuid).0.states) {
      ClaimLeasedIndexed(pruned, session, conversation, fp, call.opt, call.token, call.billingUuid);
    }
  }

  function ClaimOf(st: Store, call: Call): Store
    requires call.ClaimCall?
  {
    Claim(st, call.session, call.conversation, call.fingerprint, call.opt, call.token, call.billingUuid, call.order,
        call.completedOrder, call.due).0
  }

  // A record that waits for what it waited for, or for nothing.
  lemma PutIndexed(st: Store, o: Owner, s: Snapshot)
    requires Indexed(st) && o.session in st.states
    requires var was := st.states[o.session];
             s.pending == [] || (s.pending == was.pending && s.batchIds == was.batchIds && s.fingerprint == was.fingerprint)
    ensures Indexed(Put(st, o, s))
  {
    hide Indexed, Lists, Pointed, Normalize;
    IndexedKeeps(st);
    IndexedKeeps(Put(st, o, s));
    assert Kept(st.index, o.session, st.states[o.session]);
  }

  lemma SavePendingIndexed(st: Store, o: Owner, pending: seq<PendingTool>)
    requires Indexed(st) && RecordedApart(SavePending(st, o, pending).0.states)
    ensures var (saved, done) := SavePending(st, o, pending); done != Failed(IndexError) ==> Indexed(saved)
  {
    hide Indexed, Sync, Normalize, ValidPending, Kept, Apart, RecordedApart, Batch, NextBatch;
    var (saved, done) := SavePending(st, o, pending);
    if Owns(st, o) && ValidPending(pending) && done == Ok {
      IndexedKeeps(st);
      IndexedKeeps(saved);
      var s := st.states[o.session];
      var next := NextBatch(s, pending);
      var t := s.(batchIds := next, pending := pending, updatedAt := st.now);
      forall id | id in saved.states
        ensures Kept(saved.index, id, saved.states[id])
      {
        if id == o.session {
          SavedIsKept(st.index, o, s, pending, t);
        } else {
          PendingApart(saved.states, id, o.session, s, pending, t);
          SyncKept(st.index, o.fingerprint, o.session, s.batchIds, next, id, st.states[id]);
        }
      }
    }
  }

  lemma PendingApart(states: map<string, Snapshot>, id: string, session: string, s: Snapshot,
      pending: seq<PendingTool>, t: Snapshot)
    requires RecordedApart(states) && id in states && session in states && states[session] == t
    requires t.batchIds == NextBatch(s, pending) && t.pending == pending
    ensures states[id].pending != [] && states[id].fingerprint == t.fingerprint && Normalize(NextBatch(s, pending)) != [] ==>
              Apart(Batch(states[id]), Normalize(NextBatch(s, pending)))
  {
    hide Normalize, Apart;
    EmptyNext();
    assert states[id].pending != [] && states[id].fingerprint == t.fingerprint && t.batchIds != [] ==> Meets(states[id], t);
  }

  lemma SavedIsKept(x: Index, o: Owner, s: Snapshot, pending: seq<PendingTool>, t: Snapshot)
    requires t.batchIds == NextBatch(s, pending) && t.pending == pending && t.fingerprint == o.fingerprint
    requires Sync(x, o.fingerprint, o.session, s.batchIds, NextBatch(s, pending)).ok
    ensures Kept(Sync(x, o.fingerprint, o.session, s.batchIds, NextBatch(s, pending)).index, o.session, t)
  {
    hide Sync, Lists, Pointed, Normalize;
    if pending != [] && Batch(t) != [] {
      NextBatchIsBatch(s, pending);
      SyncAdds(x, o.fingerprint, o.session, s.batchIds, NextBatch(s, pending));
      SyncPoints(x, o.fingerprint, o.session, s.batchIds, NextBatch(s, pending));
    }
  }

  lemma Call1Indexed(st: Store, call: Call)
    requires Indexed(st) && !call.PendingCall?
    ensures Indexed(Call1(st, call).0)
  {
    hide Indexed, SaveCompleted, SaveHistory, Remove, Owns, Trim, U.UsageEvidence;
    match call {
      case CheckpointCall(o, checkpoint, blobs, fits) =>
        if Owns(st, o) {
          OwnerHasRecord(st, o);
          PutIndexed(st, o, st.states[o.session].(checkpoint := checkpoint, blobs := blobs));
        }
      case FollowUpCall(o, followUp) =>
        if Owns(st, o) {
          OwnerHasRecord(st, o);
          PutIndexed(st, o, st.states[o.session].(followUp := Trim(followUp)));
        }
      case BillingCall(o, billing) =>
        if Owns(st, o) {
          OwnerHasRecord(st, o);
          PutIndexed(st, o, st.states[o.session].(billingRunId := Trim(billing)));
        }
      case CarryCall(o, events) =>
        if Owns(st, o) {
          OwnerHasRecord(st, o);
          PutIndexed(st, o, st.states[o.session].(usageCarry := U.UsageEvidence(events)));
        }
      case CompletedCall(o, results, events, ephemeral, followUp) => SaveCompletedIndexed(st, o, results, events,
          ephemeral, followUp);
      case HistoryCall(o, key, events) => SaveHistoryIndexed(st, o, key, events);
      case DeleteCall(o) =>
        if o.session in st.states {
          RemoveIndexed(st, o.session);
        }
      case DeleteSessionCall(session, fp) =>
        if Trim(session) in st.states {
          RemoveIndexed(st, Trim(session));
        }
      case _ =>
    }
  }

  lemma CompletedIsApart(st: Store, completed: Completed)
    requires Indexed(st)
    ensures Indexed(st.(completed := completed))
  {
    hide AllListed, AllPointed;
  }

  lemma SaveCompletedIndexed(st: Store, o: Owner, results: seq<ToolResult>, events: seq<Event>, ephemeral: bool,
      followUp: string)
    requires Indexed(st)
    ensures Indexed(SaveCompleted(st, o, results, events, ephemeral, followUp).0)
  {
    hide Indexed, CanonicalResults, Write, Owns, CompletedRecord, E.Fill;
    if Owns(st, o) {
      OwnerHasRecord(st, o);
      var s := st.states[o.session];
      forall completed, f, e, at
        ensures Indexed(Put(st.(completed := completed), o, s.(followUp := f, ephemeral := e, completedAt := at)))
      {
        CompletedIsApart(st, completed);
        PutIndexed(st.(completed := completed), o, s.(followUp := f, ephemeral := e, completedAt := at));
      }
    }
  }

  lemma SaveHistoryIndexed(st: Store, o: Owner, key: string, events: seq<Event>)
    requires Indexed(st)
    ensures Indexed(SaveHistory(st, o, key, events).0)
  {
    hide Indexed, WriteHistory, Owns, HistoryRecord, E.Fill, Visible;
    if Owns(st, o) {
      OwnerHasRecord(st, o);
      var s := st.states[o.session];
      PutIndexed(st, o, s);
      forall completed
        ensures Indexed(Put(st.(completed := completed), o, ClearedRun(s).(ephemeral := true, completedAt := st.now)))
      {
        CompletedIsApart(st, completed);
        PutIndexed(st.(completed := completed), o, ClearedRun(s).(ephemeral := true, completedAt := st.now));
      }
    }
  }

  lemma ResolveIndexed(st: Store, fingerprint: string, ids: seq<string>, order: seq<string>,
      completedOrder: seq<string>, due: bool)
    requires Indexed(st)
    ensures Indexed(ResolvePending(st, fingerprint, ids, order, completedOrder, due).0)
  {
    hide AllListed, AllPointed, PruneExpired, Trim, ResolveExact, CoveringBatch, Normalize;
    var (fp, submitted) := (Trim(fingerprint), Normalize(ids));
    PruneExpiredIndexed(st, due, order, completedOrder);
    var pruned := PruneExpired(st, due, order, completedOrder).0;
    if fp != "" && submitted != [] {
      ResolveIsScan(pruned.index, pruned.states, fp, submitted);
      ExactKeepsPointed(pruned.index, pruned.states, fp, submitted);
      var y := ResolveExact(pruned.index, pruned.states, fp, submitted).0;
      var covering := CoveringBatch(y, fp, submitted, |submitted|);
      if covering.Covering? && covering.batch != [] {
        CoveringIsBatch(y, fp, submitted, |submitted|);
        ResolveIsScan(y, pruned.states, fp, covering.batch);
        ExactKeepsPointed(y, pruned.states, fp, covering.batch);
      }
    }
  }

  lemma OpenIndexed(st: Store, order: seq<string>, completedOrder: seq<string>)
    requires (forall id :: id in st.states ==> id in order) && RecordedApart(Open(st, order, completedOrder).0.states)
    ensures var (opened_, ok) := Open(st, order, completedOrder); ok ==> Indexed(opened_)
  {
    hide PruneExpired, Rebuild, Listed, Pointed, RecordedApart, BatchesApart;
    PruneExpiredKeepsRecords(st, true, order, completedOrder);
    var (pruned, ok) := PruneExpired(st, true, order, completedOrder);
    if ok && Rebuild(pruned.index, pruned.states, order).ok {
      RecordedIsWaiting(pruned.states);
      RebuildLists(pruned.index, pruned.states, order);
      RebuildPoints(pruned.index, pruned.states, order);
    }
  }

  predicate IndexedWorld(w: World) {
    Accounted(w.store.states) && (w.unsynced || Indexed(w.store))
  }

  lemma StepIndexed(w: World, call: Call)
    requires IndexedWorld(w) && Allowed(w, call) && RecordedApart(Step(w, call).store.states)
    ensures IndexedWorld(Step(w, call))
  {
    hide Accounted, Indexed, Open, Claim, Release, ResolvePending, StateStores.FindCompleted, PendingWrite,
        SavePending, Call1, Owns, ValidPending, RecordedApart, AllListed, AllPointed;
    var st := w.store;
    StepAccounted(w, call);
    if !w.unsynced {
      match call {
        case OpenCall(order, completedOrder) => OpenIndexed(st, order, completedOrder);
        case ClaimCall(_, _, _, _, _, _, _, _, _) => ClaimIndexed(st, call);
        case ResolveCall(fp, ids, order, completedOrder, due) => ResolveIndexed(st, fp, ids, order, completedOrder, due);
        case PendingCall(o, pending) => SavePendingIndexed(st, o, pending);
        case DiesIn(_, _) =>
        case ReleaseCall(o) =>
          ReleaseKeeps(st, o);
          SameIndex(st, Step(w, call).store);
        case FindCall(fp, results, followUp, completedOrder, due) =>
          FindKeeps(st, fp, results, followUp, completedOrder, due);
          SameIndex(st, Step(w, call).store);
        case Tick(_) =>
          TickKeeps(w, call);
          SameIndex(st, Step(w, call).store);
        case Dies(_) =>
          TickKeeps(w, call);
          SameIndex(st, Step(w, call).store);
        case _ => Call1Indexed(st, call);
      }
    } else if call.OpenCall? {
      OpenIndexed(st, call.order, call.completedOrder);
    } else {
      StaysUnsynced(w, call);
    }
  }

  lemma SameIndex(st: Store, next: Store)
    requires next.index == st.index && next.states == st.states
    ensures Indexed(st) <==> Indexed(next)
  {
    hide AllListed, AllPointed;
  }

  // All along, no batch of an account overlaps one that is waited for.
  predicate ApartRun(w: World, calls: seq<Call>) {
    RecordedApart(Run(w, calls).store.states) && (calls == [] || ApartRun(w, calls[..|calls| - 1]))
  }

  lemma {:induction false} RunIndexed(w: World, calls: seq<Call>)
    requires IndexedWorld(w) && AllowedRun(w, calls) && ApartRun(w, calls)
    ensures IndexedWorld(Run(w, calls))
  {
    hide IndexedWorld, Allowed, Step, RecordedApart;
    if calls != [] {
      RunIndexed(w, calls[..|calls| - 1]);
      StepIndexed(Run(w, calls[..|calls| - 1]), calls[|calls| - 1]);
    }
  }

  // ---------------------------------------------------------------------
  // Records that wait
  // ---------------------------------------------------------------------

  // A record names a batch only while it waits, as the store writes every record.
  predicate Tidy(states: map<string, Snapshot>) {
    forall id :: id in states ==> TidyRecord(states[id])
  }

  predicate TidyRecord(s: Snapshot) {
    s.pending == [] ==> s.batchIds == []
  }

  lemma PutTidy(st: Store, o: Owner, s: Snapshot)
    requires Tidy(st.states) && TidyRecord(s)
    ensures Tidy(Put(st, o, s).states)
  {}

  lemma FewerStayTidy(st: Store, next: Store)
    requires Tidy(st.states) && forall id :: id in next.states ==> id in st.states && next.states[id] == st.states[id]
    ensures Tidy(next.states)
  {}

  lemma RemoveTidy(st: Store, id: string)
    requires Tidy(st.states) && id in st.states
    ensures Tidy(Remove(st, id).0.states)
  {
    hide TidyRecord;
    RemovedStates(st, id);
  }

  lemma ClaimWriteTidy(st: Store, session: string, before: Snapshot, ready: Prepared, fp: string, token: string)
    requires Tidy(st.states) && ready.Ready? && TidyRecord(ready.snapshot)
    ensures Tidy(ClaimWrite(st, session, before, ready, fp, token).0.states)
  {
    hide ClaimSync;
  }

  lemma ClaimTidy(st: Store, call: Call)
    requires Tidy(st.states) && call.ClaimCall?
    ensures Tidy(ClaimOf(st, call).states)
  {
    hide Tidy, PruneExpired, Remove, Prepare, ClaimWrite, StateExpired, LookupHistory, Trim;
    PruneExpiredKeepsRecords(st, call.due, call.order, call.completedOrder);
    var pruned := PruneExpired(st, call.due, call.order, call.completedOrder).0;
    FewerStayTidy(st, pruned);
    var (session, conversation, fp) := (Trim(call.session), Trim(call.conversation), Trim(call.fingerprint));
    var expired := session in pruned.states && StateExpired(pruned.states[session], pruned.now, pruned.ttl);
    if expired {
      RemoveTidy(pruned, session);
    }
    var kept := if expired then Remove(pruned, session).0 else pruned;
    var created := session !in kept.states;
    var current := if created then NewSnapshot(session, conversation) else kept.states[session];
    PrepareKeepsBatch(current, created, conversation, fp, call.opt, call.billingUuid);
    if !created {
      RecordIsTidy(kept.states, session);
    }
    var ready := Prepare(current, created, conversation, fp, call.opt, call.billingUuid);
    if ready.Ready? {
      ClaimWriteTidy(kept, session, current, ready, fp, call.token);
    }
  }

  lemma RecordIsTidy(states: map<string, Snapshot>, id: string)
    requires Tidy(states) && id in states
    ensures TidyRecord(states[id])
  {}

  lemma SaveTidy(st: Store, o: Owner, pending: seq<PendingTool>)
    requires Tidy(st.states)
    ensures Tidy(SavePending(st, o, pending).0.states)
  {
    hide Sync, ValidPending, PendingToolIds;
  }

  lemma SaveCompletedTidy(st: Store, o: Owner, results: seq<ToolResult>, events: seq<Event>, ephemeral: bool,
      followUp: string)
    requires Tidy(st.states)
    ensures Tidy(SaveCompleted(st, o, results, events, ephemeral, followUp).0.states)
  {
    hide Tidy, CanonicalResults, Write, Owns, CompletedRecord, E.Fill;
    if Owns(st, o) {
      OwnerHasRecord(st, o);
      RecordIsTidy(st.states, o.session);
      var s := st.states[o.session];
      forall completed, f, e, at
        ensures Tidy(Put(st.(completed := completed), o, s.(followUp := f, ephemeral := e, completedAt := at)).states)
      {
        PutTidy(st.(completed := completed), o, s.(followUp := f, ephemeral := e, completedAt := at));
      }
    }
  }

  lemma SaveHistoryTidy(st: Store, o: Owner, key: string, events: seq<Event>)
    requires Tidy(st.states)
    ensures Tidy(SaveHistory(st, o, key, events).0.states)
  {
    hide Tidy, WriteHistory, Owns, HistoryRecord, E.Fill, Visible;
    if Owns(st, o) {
      OwnerHasRecord(st, o);
      RecordIsTidy(st.states, o.session);
      var s := st.states[o.session];
      PutTidy(st, o, s);
      forall completed
        ensures Tidy(Put(st.(completed := completed), o, ClearedRun(s).(ephemeral := true, completedAt := st.now)).states)
      {
        PutTidy(st.(completed := completed), o, ClearedRun(s).(ephemeral := true, completedAt := st.now));
      }
    }
  }

  lemma Call1Tidy(st: Store, call: Call)
    requires Tidy(st.states)
    ensures Tidy(Call1(st, call).0.states)
  {
    hide Tidy, TidyRecord, SaveCompleted, SaveHistory, SavePending, Remove, Owns, Trim, U.UsageEvidence, Put;
    match call {
      case PendingCall(o, pending) => SaveTidy(st, o, pending);
      case CompletedCall(o, results, events, ephemeral, followUp) => SaveCompletedTidy(st, o, results, events,
          ephemeral, followUp);
      case HistoryCall(o, key, events) => SaveHistoryTidy(st, o, key, events);
      case DeleteCall(o) =>
        if o.session in st.states {
          RemoveTidy(st, o.session);
        }
      case DeleteSessionCall(session, fp) =>
        if Trim(session) in st.states {
          RemoveTidy(st, Trim(session));
        }
      case _ => FieldsStayTidy(st, call);
    }
  }

  lemma FieldsStayTidy(st: Store, call: Call)
    requires Tidy(st.states)
    requires !call.PendingCall? && !call.CompletedCall? && !call.HistoryCall? && !call.DeleteCall? && !call.DeleteSessionCall?
    ensures Tidy(Call1(st, call).0.states)
  {
    hide Trim, U.UsageEvidence;
  }

  lemma {:induction false} StepTidy(w: World, call: Call)
    requires Tidy(w.store.states)
    ensures Tidy(Step(w, call).store.states)
    decreases call
  {
    hide Tidy, Open, Claim, Release, ResolvePending, StateStores.FindCompleted, SavePending, Call1, Owns;
    var st := w.store;
    match call {
      case OpenCall(order, completedOrder) => OpenTidy(st, order, completedOrder);
      case ClaimCall(_, _, _, _, _, _, _, _, _) => ClaimTidy(st, call);
      case ResolveCall(fp, ids, order, completedOrder, due) => ResolveTidy(st, fp, ids, order, completedOrder, due);
      case PendingCall(o, pending) => SaveTidy(st, o, pending);
      case DiesIn(inner, left) => StepTidy(w, inner);
      case ReleaseCall(o) => ReleaseKeeps(st, o);
      case FindCall(fp, results, followUp, completedOrder, due) => FindKeeps(st, fp, results, followUp, completedOrder, due);
      case Tick(_) => TickKeeps(w, call);
      case Dies(_) => TickKeeps(w, call);
      case _ => Call1Tidy(st, call);
    }
  }

  lemma OpenTidy(st: Store, order: seq<string>, completedOrder: seq<string>)
    requires Tidy(st.states)
    ensures Tidy(Open(st, order, completedOrder).0.states)
  {
    hide PruneExpired, Rebuild, Tidy;
    PruneExpiredKeepsRecords(st, true, order, completedOrder);
    FewerStayTidy(st, PruneExpired(st, true, order, completedOrder).0);
  }

  lemma ResolveTidy(st: Store, fp: string, ids: seq<string>, order: seq<string>, completedOrder: seq<string>, due: bool)
    requires Tidy(st.states)
    ensures Tidy(ResolvePending(st, fp, ids, order, completedOrder, due).0.states)
  {
    hide PruneExpired, Resolve, Tidy, Trim, Normalize;
    PruneExpiredKeepsRecords(st, due, order, completedOrder);
    FewerStayTidy(st, PruneExpired(st, due, order, completedOrder).0);
  }

  // All along, the batches that an account waits for are equal or disjoint.
  predicate WaitingApartRun(w: World, calls: seq<Call>) {
    BatchesApart(Run(w, calls).store.states) && (calls == [] || WaitingApartRun(w, calls[..|calls| - 1]))
  }

  lemma TidyIsRecorded(states: map<string, Snapshot>)
    requires Tidy(states) && BatchesApart(states)
    ensures RecordedApart(states)
  {
    hide Batch, Apart;
    forall a, b | a in states && b in states && Meets(states[a], states[b])
      ensures Apart(Batch(states[a]), Batch(states[b]))
    {
      assert TidyRecord(states[b]);
      assert BothWait(states[a], states[b]);
    }
  }

  lemma {:induction false} TidyRunIsApart(w: World, calls: seq<Call>)
    requires Tidy(w.store.states) && WaitingApartRun(w, calls)
    ensures Tidy(Run(w, calls).store.states) && ApartRun(w, calls)
  {
    hide Step, Tidy, BatchesApart, RecordedApart;
    if calls != [] {
      TidyRunIsApart(w, calls[..|calls| - 1]);
      StepTidy(Run(w, calls[..|calls| - 1]), calls[|calls| - 1]);
    }
    TidyIsRecorded(Run(w, calls).store.states);
  }

  // In every state of a run whose waiting batches are equal or disjoint, with the
  // index in step: results that cover two of them are ambiguous, and never one of
  // the sessions; only a stuck record makes the read fail.
  lemma TwoBatchesAreNeverResolved(w: World, calls: seq<Call>, fp: string, submitted: seq<string>, a: string, b: string)
    requires Accounted(w.store.states) && Tidy(w.store.states) && w.unsynced
    requires AllowedRun(w, calls) && WaitingApartRun(w, calls) && !Run(w, calls).unsynced
    requires IsBatch(submitted) && fp != ""
    requires var states := Run(w, calls).store.states;
             WaitsWithin(states, fp, submitted, a) && WaitsWithin(states, fp, submitted, b) && Batch(states[a]) != Batch(states[b])
    ensures var st := Run(w, calls).store;
            var r := Resolve(st.index, st.states, fp, submitted).1;
            r == if Overfull(st.index, fp, submitted) then IndexFailed else Ambiguous
  {
    TidyRunIsApart(w, calls);
    RunIndexed(w, calls);
    ApartAtTheEnd(w, calls);
    hide Run, AllowedRun, ApartRun, WaitingApartRun, Accounted, Tidy, AllListed, AllPointed, Resolve, Overfull,
        RecordedApart, BatchesApart, WaitsWithin;
    var st := Run(w, calls).store;
    RecordedIsWaiting(st.states);
    TwoBatchesAreAmbiguous(st.index, st.states, fp, submitted, a, b);
  }

  lemma ApartAtTheEnd(w: World, calls: seq<Call>)
    requires ApartRun(w, calls)
    ensures RecordedApart(Run(w, calls).store.states)
  {}
}
