// Every run of the session store: any calls, by any number of processes, in any
// order, with crashes.
module StoreRuns {
  import opened Events
  import opened Strings
  import opened ToolIds
  import opened StateSnapshots
  import opened PendingIndexes
  import opened CompletedSnapshots
  import opened StateStores
  import U = Usages
  import E = EventSnapshots

  datatype Call =
    | Tick(elapsed: nat)
    | OpenCall(order: seq<string>, completedOrder: seq<string>)
    | ClaimCall(session: string, conversation: string, fingerprint: string, opt: ClaimOptions, token: string, billingUuid: string,
                order: seq<string>, completedOrder: seq<string>, due: bool)
    | CheckpointCall(owner: Owner, checkpoint: string, blobs: map<string, string>, fits: bool)
    | FollowUpCall(owner: Owner, followUp: string)
    | BillingCall(owner: Owner, billing: string)
    | CarryCall(owner: Owner, events: seq<Event>)
    | PendingCall(owner: Owner, pending: seq<PendingTool>)
    | CompletedCall(owner: Owner, results: seq<ToolResult>, events: seq<Event>, ephemeral: bool, followUp: string)
    | HistoryCall(owner: Owner, key: string, events: seq<Event>)
    | DeleteCall(owner: Owner)
    | ReleaseCall(owner: Owner)
    | DeleteSessionCall(session: string, fingerprint: string)
    | ResolveCall(fingerprint: string, ids: seq<string>, order: seq<string>, completedOrder: seq<string>, due: bool)
    | FindCall(fingerprint: string, results: seq<ToolResult>, followUp: string, completedOrder: seq<string>, due: bool)
    // A process dies: the system drops its locks.
    | Dies(handles: set<nat>)
    // A process dies inside a call, between the records and the index: those are
    // written or removed as the call does it, and the index is left anyhow.
    | DiesIn(call: Call, left: Index)

  // The calls that write or remove session records and then update the index.
  // Pruning and the rebuild go over a listing, of which any part may be done.
  predicate UpdatesIndex(call: Call) {
    call.OpenCall? || call.ClaimCall? || call.PendingCall? || call.DeleteCall? || call.DeleteSessionCall? || call.ResolveCall?
  }

  // `issued` are the owners that claims returned, `tokens` the UUIDs drawn so far;
  // `unsynced` says that an index update may have been lost since the last rebuild.
  datatype World = World(store: Store, issued: seq<Owner>, tokens: set<string>, unsynced: bool)

  function Call1(st: Store, call: Call): (Store, Done) {
    match call
    case CheckpointCall(o, checkpoint, blobs, fits) => SaveCheckpoint(st, o, checkpoint, blobs, fits)
    case FollowUpCall(o, followUp) => SaveFollowUp(st, o, followUp)
    case BillingCall(o, billing) => SetBillingRunId(st, o, billing)
    case CarryCall(o, events) => SaveUsageCarry(st, o, events)
    case PendingCall(o, pending) => SavePending(st, o, pending)
    case CompletedCall(o, results, events, ephemeral, followUp) => SaveCompleted(st, o, results, events, ephemeral, followUp)
    case HistoryCall(o, key, events) => SaveHistory(st, o, key, events)
    case DeleteCall(o) => Delete(st, o)
    case DeleteSessionCall(session, fp) => DeleteSession(st, session, fp)
    case _ => (st, Ok)
  }

  function Step(w: World, call: Call): World {
    var st := w.store;
    match call
    case Tick(elapsed) => w.(store := st.(now := st.now + elapsed))
    case OpenCall(order, completedOrder) =>
      var (opened_, ok) := Open(st, order, completedOrder);
      w.(store := opened_, unsynced := !ok)
    case ClaimCall(session, conversation, fp, opt, token, billingUuid, order, completedOrder, due) =>
      var (claimed, r) := Claim(st, session, conversation, fp, opt, token, billingUuid, order, completedOrder, due);
      World(claimed, w.issued + if r.Claimed? then [r.owner] else [], w.tokens + {token}, w.unsynced)
    case ReleaseCall(o) => w.(store := Release(st, o))
    case ResolveCall(fp, ids, order, completedOrder, due) => w.(store := ResolvePending(st, fp, ids, order, completedOrder, due).0)
    case FindCall(fp, results, followUp, completedOrder, due) => w.(store := StateStores.FindCompleted(st, fp, results,
        followUp, completedOrder, due).0)
    case Dies(handles) => w.(store := st.(leases := st.leases - handles))
    case DiesIn(inner, left) =>
      if UpdatesIndex(inner) then Dying(w, Step(w, inner), left) else w
    case PendingCall(o, pending) =>
      var (saved, done) := SavePending(st, o, pending);
      w.(store := saved, unsynced := w.unsynced || done == Failed(IndexError))
    case _ => w.(store := Call1(st, call).0)
  }

  // The lease of a claim that dies is dropped, and nobody gets its owner.
  function Dying(w: World, next: World, left: Index): World {
    World(next.store.(index := left, leases := w.store.leases, nextHandle := w.store.nextHandle), w.issued, next.tokens, true)
  }

  function Run(w: World, calls: seq<Call>): World {
    if calls == [] then w else Step(Run(w, calls[..|calls| - 1]), calls[|calls| - 1])
  }

  // A new process lists the whole directory.
  predicate Allowed(w: World, call: Call) {
    call.OpenCall? ==> forall id :: id in w.store.states ==> id in call.order
  }

  predicate AllowedRun(w: World, calls: seq<Call>) {
    calls == [] || (AllowedRun(w, calls[..|calls| - 1]) && Allowed(Run(w, calls[..|calls| - 1]), calls[|calls| - 1]))
  }

  // ---------------------------------------------------------------------
  // The index agrees with the sessions
  // ---------------------------------------------------------------------

  predicate InStep(st: Store) {
    AllListed(st.index, st.states)
  }

  // Everything but the records and the index of `session` is as it was.
  ghost predicate KeepsOthers(x: Index, y: Index, session: string) {
    forall f, b, id :: id != session && Lists(x, f, b, id) ==> Lists(y, f, b, id)
  }

  lemma SyncKeepsOthers(x: Index, fp: string, session: string, previous: seq<string>, next: seq<string>)
    ensures KeepsOthers(x, Sync(x, fp, session, previous, next).index, session)
  {
    hide Sync, Lists, Normalize;
    forall f, b, id | id != session && Lists(x, f, b, id)
      ensures Lists(Sync(x, fp, session, previous, next).index, f, b, id)
    {
      SyncKeeps(x, fp, session, previous, next, f, b, id);
    }
  }

  lemma RecordsStayListed(st: Store, y: Index, session: string, s: Snapshot)
    requires InStep(st) && KeepsOthers(st.index, y, session) && Listed(y, session, s)
    ensures AllListed(y, st.states[session := s]) && AllListed(y, st.states - {session})
  {
    hide Lists, Batch;
    forall id | id in st.states && id != session
      ensures Listed(y, id, st.states[id])
    {
      assert Listed(st.index, id, st.states[id]);
    }
  }

  lemma RemoveInStep(st: Store, id: string)
    requires InStep(st) && id in st.states
    ensures InStep(Remove(st, id).0)
  {
    hide Sync, Lists, Batch, KeepsOthers;
    var s := st.states[id];
    SyncKeepsOthers(st.index, s.fingerprint, id, s.batchIds, []);
    RecordsStayListed(st, Sync(st.index, s.fingerprint, id, s.batchIds, []).index, id, s.(pending := []));
  }

  lemma {:induction false} PruneInStep(st: Store, order: seq<string>)
    requires InStep(st)
    ensures var p := PruneStates(st, order).0;
            InStep(p) && p == st.(states := p.states, index := p.index) && p.states.Keys <= st.states.Keys
  {
    hide Remove, StateExpired, AllListed;
    if order != [] {
      PruneInStep(st, order[..|order| - 1]);
      var (before, id) := (PruneStates(st, order[..|order| - 1]).0, order[|order| - 1]);
      if id in before.states {
        RemoveInStep(before, id);
        RemovedFields(before, id);
      }
    }
  }

  lemma RemovedFields(st: Store, id: string)
    requires id in st.states
    ensures var r := Remove(st, id).0; r == st.(states := r.states, index := r.index) && r.states.Keys <= st.states.Keys
  {
    hide Sync;
  }

  lemma PruneExpiredInStep(st: Store, due: bool, order: seq<string>, completedOrder: seq<string>)
    requires InStep(st)
    ensures var p := PruneExpired(st, due, order, completedOrder).0; InStep(p) && p.states.Keys <= st.states.Keys && p.leases == st.leases
  {
    hide PruneStates, Prune, AllListed;
    PruneInStep(st, order);
  }

  // A claim either keeps the pending tools, and then their batch and account, or
  // has cleared them.
  lemma PrepareKeepsBatch(current: Snapshot, created: bool, conversation: string, fp: string, opt: ClaimOptions,
      billingUuid: string)
    ensures var r := Prepare(current, created, conversation, fp, opt, billingUuid);
            r.Ready? ==>
              || (r.snapshot.pending == [] && r.snapshot.batchIds == [])
              || (&& r.snapshot.pending == current.pending && r.snapshot.batchIds == current.batchIds
                  && (current.fingerprint == "" || current.fingerprint == fp))
  {
    hide Trim, Profiled, Billed;
    var a := Profiled(current, created, opt);
    ProfiledKeepsBatch(current, created, opt);
    var b := if opt.historyKey == "" then a else ClearedRun(a).(conversationId := conversation, ephemeral := false,
        completedAt := ZERO_TIME);
    var cold := current.fingerprint != "" && current.fingerprint != fp;
    var c := if !cold then b else ClearedRun(b).(toolCatalog := [], billingRunId := "", conversationId := conversation);
    BilledKeepsBatch(c, opt, billingUuid);
  }

  lemma ProfiledKeepsBatch(s: Snapshot, created: bool, opt: ClaimOptions)
    ensures var r := Profiled(s, created, opt); r.pending == s.pending && r.batchIds == s.batchIds
  {
    hide Trim;
  }

  lemma BilledKeepsBatch(s: Snapshot, opt: ClaimOptions, uuid: string)
    ensures var r := Billed(s, opt, uuid); r.pending == s.pending && r.batchIds == s.batchIds
  {
    hide Trim, IsMetered;
  }

  lemma ClaimWriteInStep(st: Store, session: string, before: Snapshot, ready: Prepared, fp: string, token: string)
    requires InStep(st) && ready.Ready?
    requires ready.snapshot.pending != [] || ready.snapshot.batchIds != [] ==>
               && session in st.states && before == st.states[session] && before.fingerprint == fp
               && ready.snapshot.pending == before.pending && ready.snapshot.batchIds == before.batchIds
    ensures InStep(ClaimWrite(st, session, before, ready, fp, token).0)
  {
    hide Sync, Lists, Normalize, KeepsOthers;
    var s := Owned(ready.snapshot, session, fp, token, st.now);
    ClaimSyncKeeps(st.index, session, before, s);
    var y := ClaimSync(st.index, session, before, s).index;
    if s.pending != [] && Batch(s) != [] {
      assert Listed(st.index, session, before);
      assert Batch(s) == Batch(before);
      SyncKeeps(st.index, fp, session, [], s.batchIds, fp, Batch(s), session);
    }
    assert Listed(y, session, s);
    RecordsStayListed(st, y, session, s);
  }

  lemma ClaimSyncKeeps(x: Index, session: string, before: Snapshot, after: Snapshot)
    ensures KeepsOthers(x, ClaimSync(x, session, before, after).index, session)
  {
    hide Sync, Lists, Normalize;
    SyncKeepsOthers(x, before.fingerprint, session, before.batchIds, []);
    var removed := Sync(x, before.fingerprint, session, before.batchIds, []).index;
    SyncKeepsOthers(removed, after.fingerprint, session, [], after.batchIds);
    SyncKeepsOthers(x, after.fingerprint, session, [], after.batchIds);
  }

  // Every record names its account, as Claim writes it.
  predicate Accounted(states: map<string, Snapshot>) {
    forall id :: id in states ==> states[id].fingerprint != ""
  }

  lemma ClaimLeasedInStep(st: Store, session: string, conversation: string, fp: string, opt: ClaimOptions,
      token: string, billingUuid: string)
    requires InStep(st) && Accounted(st.states)
    ensures InStep(ClaimLeased(st, session, conversation, fp, opt, token, billingUuid).0)
  {
    hide AllListed, Remove, Prepare, ClaimWrite, StateExpired, LookupHistory;
    var expired := session in st.states && StateExpired(st.states[session], st.now, st.ttl);
    var kept := if expired then Remove(st, session).0 else st;
    if expired {
      RemoveInStep(st, session);
      RemovedStates(st, session);
    }
    var created := session !in kept.states;
    var current := if created then NewSnapshot(session, conversation) else kept.states[session];
    PrepareKeepsBatch(current, created, conversation, fp, opt, billingUuid);
    var ready := Prepare(current, created, conversation, fp, opt, billingUuid);
    if ready.Ready? {
      ClaimWriteInStep(kept, session, current, ready, fp, token);
    }
  }

  lemma RemovedStates(st: Store, id: string)
    requires id in st.states
    ensures Remove(st, id).0.states == st.states - {id}
  {
    hide Sync;
  }

  lemma ClaimInStep(st: Store, call: Call)
    requires InStep(st) && Accounted(st.states) && call.ClaimCall?
    ensures InStep(Claim(st, call.session, call.conversation, call.fingerprint, call.opt, call.token,
        call.billingUuid, call.order,
                         call.completedOrder, call.due).0)
  {
    hide AllListed, PruneExpired, ClaimLeased, Trim;
    PruneExpiredInStep(st, call.due, call.order, call.completedOrder);
    PruneExpiredKeepsRecords(st, call.due, call.order, call.completedOrder);
    var pruned := PruneExpired(st, call.due, call.order, call.completedOrder).0;
    ClaimLeasedInStep(pruned, Trim(call.session), Trim(call.conversation), Trim(call.fingerprint), call.opt,
        call.token, call.billingUuid);
  }

  // Pruning takes records away and leaves the others as they are.
  lemma {:induction false} PruneKeepsRecords(st: Store, order: seq<string>)
    ensures var p := PruneStates(st, order).0;
            && p == st.(states := p.states, index := p.index)
            && forall id :: id in p.states ==> id in st.states && p.states[id] == st.states[id]
  {
    hide StateExpired, Sync;
    if order != [] {
      PruneKeepsRecords(st, order[..|order| - 1]);
    }
  }

  lemma PruneExpiredKeepsRecords(st: Store, due: bool, order: seq<string>, completedOrder: seq<string>)
    ensures var p := PruneExpired(st, due, order, completedOrder).0;
            && (Accounted(st.states) ==> Accounted(p.states))
            && forall id :: id in p.states ==> id in st.states && p.states[id] == st.states[id]
  {
    hide PruneStates, Prune;
    PruneKeepsRecords(st, order);
  }

  // A record that changes neither its account nor what it waits for, or waits no
  // longer, stays listed.
  lemma PutInStep(st: Store, o: Owner, s: Snapshot)
    requires InStep(st) && o.session in st.states
    requires var old_ := st.states[o.session];
             s.pending == [] || (s.pending == old_.pending && s.batchIds == old_.batchIds && s.fingerprint == old_.fingerprint)
    ensures InStep(Put(st, o, s))
  {
    hide Lists, Normalize;
    assert Listed(st.index, o.session, st.states[o.session]);
    RecordsStayListed(st, st.index, o.session, s.(updatedAt := st.now));
  }

  lemma SavePendingInStep(st: Store, o: Owner, pending: seq<PendingTool>)
    requires InStep(st)
    ensures var (saved, done) := SavePending(st, o, pending); done != Failed(IndexError) ==> InStep(saved)
  {
    hide Sync, Lists, Normalize, ValidPending, KeepsOthers, AllListed;
    if Owns(st, o) && ValidPending(pending) {
      var s := st.states[o.session];
      var next := NextBatch(s, pending);
      var synced := Sync(st.index, o.fingerprint, o.session, s.batchIds, next);
      var t := s.(batchIds := next, pending := pending, updatedAt := st.now);
      SyncKeepsOthers(st.index, o.fingerprint, o.session, s.batchIds, next);
      if synced.ok && pending != [] && Batch(t) != [] {
        NextBatchIsBatch(s, pending);
        SyncAdds(st.index, o.fingerprint, o.session, s.batchIds, next);
      }
      if synced.ok {
        RecordsStayListed(st, synced.index, o.session, t);
      }
    }
  }

  // A session with pending tools records the batch it is listed under.
  lemma NextBatchIsBatch(s: Snapshot, pending: seq<PendingTool>)
    requires pending != []
    ensures Batch(s.(batchIds := NextBatch(s, pending), pending := pending)) == Normalize(NextBatch(s, pending))
  {
    hide Normalize;
    assert Normalize([]) == [] by { EmptyNormalizes(); }
    NormalizeIsIdempotent(PendingToolIds(pending));
  }

  lemma EmptyNormalizes()
    ensures Normalize([]) == []
  {}

  lemma Call1InStep(st: Store, call: Call)
    requires InStep(st) && !call.PendingCall?
    ensures InStep(Call1(st, call).0)
  {
    hide AllListed, CanonicalResults, Write, WriteHistory, Remove, Owns, Trim;
    match call {
      case CheckpointCall(o, checkpoint, blobs, fits) =>
        if Owns(st, o) {
          OwnerHasRecord(st, o);
          PutInStep(st, o, st.states[o.session].(checkpoint := checkpoint, blobs := blobs));
        }
      case FollowUpCall(o, followUp) =>
        if Owns(st, o) {
          OwnerHasRecord(st, o);
          PutInStep(st, o, st.states[o.session].(followUp := Trim(followUp)));
        }
      case BillingCall(o, billing) =>
        if Owns(st, o) {
          OwnerHasRecord(st, o);
          PutInStep(st, o, st.states[o.session].(billingRunId := Trim(billing)));
        }
      case CarryCall(o, events) =>
        if Owns(st, o) {
          OwnerHasRecord(st, o);
          PutInStep(st, o, st.states[o.session].(usageCarry := U.UsageEvidence(events)));
        }
      case CompletedCall(o, results, events, ephemeral, followUp) => SaveCompletedInStep(st, o, results, events,
          ephemeral, followUp);
      case HistoryCall(o, key, events) => SaveHistoryInStep(st, o, key, events);
      case DeleteCall(o) =>
        if o.session in st.states {
          RemoveInStep(st, o.session);
        }
      case DeleteSessionCall(session, fp) =>
        if Trim(session) in st.states {
          RemoveInStep(st, Trim(session));
        }
      case _ =>
    }
  }

  lemma OwnerHasRecord(st: Store, o: Owner)
    requires Owns(st, o)
    ensures o.session in st.states && st.states[o.session].fingerprint == o.fingerprint
  {}

  lemma SaveCompletedInStep(st: Store, o: Owner, results: seq<ToolResult>, events: seq<Event>, ephemeral: bool,
      followUp: string)
    requires InStep(st)
    ensures InStep(SaveCompleted(st, o, results, events, ephemeral, followUp).0)
  {
    hide AllListed, CanonicalResults, Write, Owns, CompletedRecord, E.Fill;
    if Owns(st, o) {
      OwnerHasRecord(st, o);
      var s := st.states[o.session];
      forall completed, f, e, at
        ensures InStep(Put(st.(completed := completed), o, s.(followUp := f, ephemeral := e, completedAt := at)))
      {
        PutInStep(st.(completed := completed), o, s.(followUp := f, ephemeral := e, completedAt := at));
      }
    }
  }

  lemma SaveHistoryInStep(st: Store, o: Owner, key: string, events: seq<Event>)
    requires InStep(st)
    ensures InStep(SaveHistory(st, o, key, events).0)
  {
    hide AllListed, WriteHistory, Owns, HistoryRecord, E.Fill, Visible;
    if Owns(st, o) {
      OwnerHasRecord(st, o);
      var s := st.states[o.session];
      PutInStep(st, o, s);
      forall completed
        ensures InStep(Put(st.(completed := completed), o, ClearedRun(s).(ephemeral := true, completedAt := st.now)))
      {
        PutInStep(st.(completed := completed), o, ClearedRun(s).(ephemeral := true, completedAt := st.now));
      }
    }
  }

  lemma ResolveInStep(st: Store, fingerprint: string, ids: seq<string>, order: seq<string>, completedOrder: seq<string>, due: bool)
    requires InStep(st)
    ensures InStep(ResolvePending(st, fingerprint, ids, order, completedOrder, due).0)
  {
    hide AllListed, PruneExpired, Trim, ResolveExact, CoveringBatch, Normalize;
    var (fp, submitted) := (Trim(fingerprint), Normalize(ids));
    PruneExpiredInStep(st, due, order, completedOrder);
    var pruned := PruneExpired(st, due, order, completedOrder).0;
    if fp != "" && submitted != [] {
      ResolveIsScan(pruned.index, pruned.states, fp, submitted);
      var y := ResolveExact(pruned.index, pruned.states, fp, submitted).0;
      var covering := CoveringBatch(y, fp, submitted, |submitted|);
      if covering.Covering? && covering.batch != [] {
        CoveringIsBatch(y, fp, submitted, |submitted|);
        ResolveIsScan(y, pruned.states, fp, covering.batch);
      }
    }
  }

  lemma {:induction false} CoveringIsBatch(x: Index, fp: string, submitted: seq<string>, k: nat)
    requires k <= |submitted| && CoveringBatch(x, fp, submitted, k).Covering?
    ensures IsBatch(CoveringBatch(x, fp, submitted, k).batch)
  {
    if k > 0 {
      CoveringIsBatch(x, fp, submitted, k - 1);
    }
  }

  // A rebuild over the whole directory lists every waiting session.
  lemma OpenInStep(st: Store, order: seq<string>, completedOrder: seq<string>)
    requires forall id :: id in st.states ==> id in order
    ensures var (opened_, ok) := Open(st, order, completedOrder); ok ==> InStep(opened_)
  {
    hide PruneExpired, Rebuild, Listed;
    PruneExpiredKeepsRecords(st, true, order, completedOrder);
    var pruned := PruneExpired(st, true, order, completedOrder).0;
    if Rebuild(pruned.index, pruned.states, order).ok {
      RebuildLists(pruned.index, pruned.states, order);
    }
  }

  lemma PutAccounted(st: Store, o: Owner, s: Snapshot)
    requires Accounted(st.states) && o.session in st.states && s.fingerprint == st.states[o.session].fingerprint
    ensures Accounted(Put(st, o, s).states)
  {
    assert st.states[o.session].fingerprint != "";
  }

  lemma Call1Accounted(st: Store, call: Call)
    requires Accounted(st.states)
    ensures Accounted(Call1(st, call).0.states)
  {
    hide Accounted, SaveCompleted, SaveHistory, SavePending, Remove, Owns, Trim, U.UsageEvidence;
    match call {
      case CheckpointCall(o, checkpoint, blobs, fits) =>
        if Owns(st, o) {
          OwnerHasRecord(st, o);
          PutAccounted(st, o, st.states[o.session].(checkpoint := checkpoint, blobs := blobs));
        }
      case FollowUpCall(o, followUp) =>
        if Owns(st, o) {
          OwnerHasRecord(st, o);
          PutAccounted(st, o, st.states[o.session].(followUp := Trim(followUp)));
        }
      case BillingCall(o, billing) =>
        if Owns(st, o) {
          OwnerHasRecord(st, o);
          PutAccounted(st, o, st.states[o.session].(billingRunId := Trim(billing)));
        }
      case CarryCall(o, events) =>
        if Owns(st, o) {
          OwnerHasRecord(st, o);
          PutAccounted(st, o, st.states[o.session].(usageCarry := U.UsageEvidence(events)));
        }
      case PendingCall(o, pending) => PendingAccounted(st, o, pending);
      case CompletedCall(o, results, events, ephemeral, followUp) => SaveCompletedAccounted(st, o, results, events,
          ephemeral, followUp);
      case HistoryCall(o, key, events) => SaveHistoryAccounted(st, o, key, events);
      case DeleteCall(o) =>
        if o.session in st.states {
          RemoveAccounted(st, o.session);
        }
      case DeleteSessionCall(session, fp) =>
        if Trim(session) in st.states {
          RemoveAccounted(st, Trim(session));
        }
      case _ =>
    }
  }

  lemma SaveCompletedAccounted(st: Store, o: Owner, results: seq<ToolResult>, events: seq<Event>, ephemeral: bool,
      followUp: string)
    requires Accounted(st.states)
    ensures Accounted(SaveCompleted(st, o, results, events, ephemeral, followUp).0.states)
  {
    hide Accounted, CanonicalResults, Write, Owns, CompletedRecord, E.Fill;
    if Owns(st, o) {
      OwnerHasRecord(st, o);
      var s := st.states[o.session];
      forall completed, f, e, at
        ensures Accounted(Put(st.(completed := completed), o, s.(followUp := f, ephemeral := e, completedAt := at)).states)
      {
        PutAccounted(st.(completed := completed), o, s.(followUp := f, ephemeral := e, completedAt := at));
      }
    }
  }

  lemma SaveHistoryAccounted(st: Store, o: Owner, key: string, events: seq<Event>)
    requires Accounted(st.states)
    ensures Accounted(SaveHistory(st, o, key, events).0.states)
  {
    hide Accounted, WriteHistory, Owns, HistoryRecord, E.Fill, Visible;
    if Owns(st, o) {
      OwnerHasRecord(st, o);
      var s := st.states[o.session];
      PutAccounted(st, o, s);
      forall completed
        ensures Accounted(Put(st.(completed := completed), o, ClearedRun(s).(ephemeral := true, completedAt := st.now)).states)
      {
        PutAccounted(st.(completed := completed), o, ClearedRun(s).(ephemeral := true, completedAt := st.now));
      }
    }
  }

  lemma RemoveAccounted(st: Store, id: string)
    requires Accounted(st.states) && id in st.states
    ensures Accounted(Remove(st, id).0.states)
  {
    hide Sync;
  }

  lemma ClaimAccounted(st: Store, call: Call)
    requires Accounted(st.states) && call.ClaimCall?
    ensures Accounted(Claim(st, call.session, call.conversation, call.fingerprint, call.opt, call.token,
        call.billingUuid, call.order,
                            call.completedOrder, call.due).0.states)
  {
    hide Accounted, PruneExpired, Remove, Prepare, ClaimWrite, StateExpired, LookupHistory, Trim;
    PruneExpiredKeepsRecords(st, call.due, call.order, call.completedOrder);
    var pruned := PruneExpired(st, call.due, call.order, call.completedOrder).0;
    var (session, conversation, fp) := (Trim(call.session), Trim(call.conversation), Trim(call.fingerprint));
    var expired := session in pruned.states && StateExpired(pruned.states[session], pruned.now, pruned.ttl);
    if expired {
      RemoveAccounted(pruned, session);
    }
    var kept := if expired then Remove(pruned, session).0 else pruned;
    var created := session !in kept.states;
    var current := if created then NewSnapshot(session, conversation) else kept.states[session];
    var ready := Prepare(current, created, conversation, fp, call.opt, call.billingUuid);
    if ready.Ready? && fp != "" {
      ClaimWriteAccounted(kept, session, current, ready, fp, call.token);
    }
  }

  lemma ClaimWriteAccounted(st: Store, session: string, before: Snapshot, ready: Prepared, fp: string, token: string)
    requires Accounted(st.states) && ready.Ready? && fp != ""
    ensures Accounted(ClaimWrite(st, session, before, ready, fp, token).0.states)
  {
    hide ClaimSync;
  }

  // The index lists every waiting session unless an update was lost.
  predicate Agrees(w: World) {
    Accounted(w.store.states) && (w.unsynced || InStep(w.store))
  }

  lemma {:induction false} StepAccounted(w: World, call: Call)
    requires Accounted(w.store.states)
    ensures Accounted(Step(w, call).store.states)
    decreases call
  {
    hide Accounted, Open, Claim, Release, ResolvePending, StateStores.FindCompleted, SavePending, Call1, Owns;
    var st := w.store;
    match call {
      case OpenCall(order, completedOrder) => OpenAccounted(st, order, completedOrder);
      case ClaimCall(_, _, _, _, _, _, _, _, _) => ClaimAccounted(st, call);
      case ResolveCall(fp, ids, order, completedOrder, due) => ResolveAccounted(st, fp, ids, order, completedOrder, due);
      case PendingCall(o, pending) => PendingAccounted(st, o, pending);
      case DiesIn(inner, left) => StepAccounted(w, inner);
      case ReleaseCall(o) => ReleaseKeeps(st, o);
      case FindCall(fp, results, followUp, completedOrder, due) => FindKeeps(st, fp, results, followUp, completedOrder, due);
      case Tick(_) => TickKeeps(w, call);
      case Dies(_) => TickKeeps(w, call);
      case _ => Call1Accounted(st, call);
    }
  }

  lemma StepAgrees(w: World, call: Call)
    requires Agrees(w) && Allowed(w, call)
    ensures Agrees(Step(w, call))
  {
    hide Accounted, AllListed, Open, Claim, Release, ResolvePending, StateStores.FindCompleted, PendingWrite,
        SavePending, Call1, Owns, ValidPending;
    var st := w.store;
    StepAccounted(w, call);
    if !w.unsynced {
      match call {
        case OpenCall(order, completedOrder) => OpenInStep(st, order, completedOrder);
        case ClaimCall(_, _, _, _, _, _, _, _, _) => ClaimInStep(st, call);
        case ResolveCall(fp, ids, order, completedOrder, due) => ResolveInStep(st, fp, ids, order, completedOrder, due);
        case PendingCall(o, pending) => SavePendingInStep(st, o, pending);
        case DiesIn(inner, left) =>
        case ReleaseCall(o) => ReleaseKeeps(st, o);
        case FindCall(fp, results, followUp, completedOrder, due) => FindKeeps(st, fp, results, followUp, completedOrder, due);
        case Tick(_) => TickKeeps(w, call);
        case Dies(_) => TickKeeps(w, call);
        case _ => Call1InStep(st, call);
      }
    } else if call.OpenCall? {
      OpenInStep(st, call.order, call.completedOrder);
    } else {
      StaysUnsynced(w, call);
    }
  }

  // Only a rebuild makes up for a lost index update.
  lemma StaysUnsynced(w: World, call: Call)
    requires w.unsynced && !call.OpenCall?
    ensures Step(w, call).unsynced
  {
    hide Claim, Release, ResolvePending, StateStores.FindCompleted, SavePending, Call1;
  }

  lemma TickKeeps(w: World, call: Call)
    requires call.Tick? || call.Dies?
    ensures Step(w, call).store.states == w.store.states && Step(w, call).store.index == w.store.index && Step(w, call).unsynced == w.unsynced
  {}

  lemma ReleaseKeeps(st: Store, o: Owner)
    ensures Release(st, o).states == st.states && Release(st, o).index == st.index
  {}

  lemma FindKeeps(st: Store, fp: string, results: seq<ToolResult>, followUp: string, completedOrder: seq<string>, due: bool)
    ensures var f := StateStores.FindCompleted(st, fp, results, followUp, completedOrder, due).0; f == st.(completed := f.completed)
  {
    hide CanonicalResults, Prune, LookupCompleted, Trim;
  }

  lemma OpenAccounted(st: Store, order: seq<string>, completedOrder: seq<string>)
    requires Accounted(st.states)
    ensures Accounted(Open(st, order, completedOrder).0.states)
  {
    hide PruneExpired, Rebuild, Accounted;
    PruneExpiredKeepsRecords(st, true, order, completedOrder);
  }

  lemma ResolveAccounted(st: Store, fp: string, ids: seq<string>, order: seq<string>, completedOrder: seq<string>, due: bool)
    requires Accounted(st.states)
    ensures Accounted(ResolvePending(st, fp, ids, order, completedOrder, due).0.states)
  {
    hide PruneExpired, Resolve, Accounted, Trim, Normalize;
    PruneExpiredKeepsRecords(st, due, order, completedOrder);
  }

  lemma DyingAccounted(st: Store, o: Owner, pending: seq<PendingTool>)
    requires Accounted(st.states)
    ensures Owns(st, o) ==> Accounted(PendingWrite(st, o, pending).states)
  {
    hide NextBatch, Accounted;
    if Owns(st, o) {
      var s := st.states[o.session];
      PutAccounted(st, o, s.(batchIds := NextBatch(s, pending), pending := pending));
    }
  }

  lemma PendingAccounted(st: Store, o: Owner, pending: seq<PendingTool>)
    requires Accounted(st.states)
    ensures Accounted(SavePending(st, o, pending).0.states)
  {
    hide PendingWrite, Accounted, Sync, ValidPending, NextBatch;
    DyingAccounted(st, o, pending);
  }

  lemma {:induction false} RunAgrees(w: World, calls: seq<Call>)
    requires Agrees(w) && AllowedRun(w, calls)
    ensures Agrees(Run(w, calls))
  {
    hide Agrees, Allowed, Step;
    if calls != [] {
      RunAgrees(w, calls[..|calls| - 1]);
      StepAgrees(Run(w, calls[..|calls| - 1]), calls[|calls| - 1]);
    }
  }

  // From any records and any index contents: once a rebuild has succeeded, and as
  // long as no call lost its index update, reading through the index
  // answers what a scan of all sessions answers.
  lemma IndexAgreesWithScan(w: World, calls: seq<Call>, fp: string, batch: seq<string>)
    requires Accounted(w.store.states) && w.unsynced && AllowedRun(w, calls)
    requires IsBatch(batch) && batch != [] && !Run(w, calls).unsynced
    ensures var st := Run(w, calls).store;
            var r := ResolveExact(st.index, st.states, fp, batch).1;
            if Stuck(st.index, st.states, fp, batch) then r == IndexFailed else Answers(r, Scan(st.states, fp, batch))
  {
    hide Run, AllowedRun, Accounted, AllListed, ResolveExact, Answers;
    RunAgrees(w, calls);
    var st := Run(w, calls).store;
    ResolveIsScan(st.index, st.states, fp, batch);
  }
}
