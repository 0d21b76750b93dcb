// state.go: a saved list of pending tools is what the session waits for, and what
// tool results find it by, until something ends the wait.
module StoreWaits {
  import opened Events
  import opened Strings
  import opened ToolIds
  import opened StateSnapshots
  import opened PendingIndexes
  import opened CompletedSnapshots
  import opened StateStores
  import opened StoreRuns
  import opened StoreClaims
  import E = EventSnapshots
  import U = Usages

  // ---------------------------------------------------------------------
  // One save
  // ---------------------------------------------------------------------

  // The ids a session waits for once the list is saved: those of the list, when
  // none were recorded or the list got longer; the recorded ones otherwise.
  function AwaitedIds(s: Snapshot, pending: seq<PendingTool>): set<string> {
    if pending == [] then {}
    else if s.batchIds == [] || |pending| > |s.pending| then Named(ToolCallIds(pending))
    else Named(s.batchIds)
  }

  // What a save that answers Ok leaves behind: the list itself, the ids, and
  // everything else of the store as it was.
  lemma SavedListIsAwaited(st: Store, o: Owner, pending: seq<PendingTool>)
    requires SavePending(st, o, pending).1 == Ok
    ensures o.session in st.states && o.session in SavePending(st, o, pending).0.states
    ensures var (next, s) := (SavePending(st, o, pending).0, st.states[o.session]);
            var t := next.states[o.session];
            && t.pending == pending && Elements(Batch(t)) == AwaitedIds(s, pending)
            && t == s.(pending := t.pending, batchIds := t.batchIds, updatedAt := st.now)
            && next == st.(states := st.states[o.session := t], index := next.index)
  {
    hide Sync, ValidPending, Normalize, Named;
    var s := st.states[o.session];
    if pending == [] {
      assert Batch(s.(batchIds := [], pending := [])) == Normalize(PendingToolIds([]));
      NothingAwaited();
    } else if s.batchIds == [] || |pending| > |s.pending| {
      NextBatchIsBatch(s, pending);
      NormalizeIsIdempotent(PendingToolIds(pending));
      NormalizeNames(ToolCallIds(pending));
    } else {
      NormalizeNames(s.batchIds);
    }
  }

  lemma NothingAwaited()
    ensures Elements(Normalize(PendingToolIds([]))) == {}
  {
    assert ToolCallIds([]) == [];
    assert Normalize([]) == [];
  }

  // A save is refused exactly when the owner does not hold the session, the list is
  // not valid, or the index cannot follow.
  lemma SaveIsRefusedIff(st: Store, o: Owner, pending: seq<PendingTool>)
    ensures var done := SavePending(st, o, pending).1;
            && (done == Failed(RetiredOwner) <==> !Owns(st, o))
            && (done == Failed(Invalid) <==> Owns(st, o) && !ValidPending(pending))
            && (done.Failed? && done.error != IndexError ==> SavePending(st, o, pending).0 == st)
  {
    hide Sync, ValidPending, Owns;
  }

  // A new list names at least one id.
  lemma ValidListsName(pending: seq<PendingTool>)
    requires ValidPending(pending) && pending != []
    ensures Named(ToolCallIds(pending)) != {}
  {
    hide Trim;
    assert pending[0] in pending;
    assert ToolCallIds(pending)[0] in ToolCallIds(pending);
    assert Trim(pending[0].toolCallId) in Named(ToolCallIds(pending));
  }

  // ---------------------------------------------------------------------
  // Until something ends the wait
  // ---------------------------------------------------------------------

  predicate Waits(st: Store, session: string, t: Snapshot) {
    && session in st.states && st.states[session].pending == t.pending && st.states[session].batchIds == t.batchIds
    && st.states[session].fingerprint == t.fingerprint
  }

  // The calls that end the wait of a session: another list or a finished history
  // request of its owner, a deletion, and a claim that clears the run, for a
  // history request or another account.
  predicate Ends(st: Store, call: Call, session: string, fp: string) {
    match call
    case PendingCall(o, _) => o.session == session && Owns(st, o)
    case HistoryCall(o, _, _) => o.session == session && Owns(st, o)
    case DeleteCall(o) => o.session == session && HasLease(st, o)
    case DeleteSessionCall(id, _) => Trim(id) == session && !Held(st, session)
    case ClaimCall(id, _, account, opt, _, _, _, _, _) =>
      Trim(id) == session && !Held(st, session) && (opt.historyKey != "" || Trim(account) != fp)
    case DiesIn(inner, _) => Ends(st, inner, session, fp)
    case _ => false
  }

  // The session is neither touched in such a way nor expired during the run.
  predicate Undisturbed(w: World, calls: seq<Call>, session: string) {
    calls == [] ||
    (var st := Run(w, calls[..|calls| - 1]).store;
     && Undisturbed(w, calls[..|calls| - 1], session)
     && session in st.states && !StateExpired(st.states[session], st.now, st.ttl)
     && !Ends(st, calls[|calls| - 1], session, st.states[session].fingerprint))
  }

  lemma PruningWaits(st: Store, due: bool, order: seq<string>, completedOrder: seq<string>, session: string, t: Snapshot)
    requires Waits(st, session, t) && !StateExpired(st.states[session], st.now, st.ttl)
    ensures Waits(PruneExpired(st, due, order, completedOrder).0, session, t)
  {
    hide PruneExpired, StateExpired;
    PrunedRecord(st, due, order, completedOrder, session);
  }

  lemma ClaimWaits(st: Store, call: Call, session: string, t: Snapshot)
    requires call.ClaimCall? && Waits(st, session, t) && !StateExpired(st.states[session], st.now, st.ttl)
    requires !Ends(st, call, session, t.fingerprint) && t.fingerprint != ""
    ensures Waits(ClaimOf(st, call).0, session, t)
  {
    hide PruneExpired, Prepare, ClaimWrite, StateExpired, LookupHistory, Trim, Remove, Admits, Inherits;
    if MayClaim(st, call) && PrunedFor(st, call).1 && Kept(st, call).1 {
      ClaimRuns(st, call);
      WrittenWaits(st, call, session, t);
    } else {
      RefusedKeeps(st, call);
    }
  }

  lemma WrittenWaits(st: Store, call: Call, session: string, t: Snapshot)
    requires call.ClaimCall? && Waits(st, session, t) && !StateExpired(st.states[session], st.now, st.ttl)
    requires !Ends(st, call, session, t.fingerprint) && t.fingerprint != ""
    requires MayClaim(st, call) && PrunedFor(st, call).1 && Kept(st, call).1
    requires var id := Trim(call.session);
             var before := Before(Record(st, id), id, Trim(call.conversation));
             var ready := Prepare(before, Record(st, id).None?, Trim(call.conversation), Trim(call.fingerprint), call.opt, call.billingUuid);
             ready.Ready? && ClaimOf(st, call) == ClaimWrite(Kept(st, call).0, id, before, ready, Trim(call.fingerprint), call.token)
    ensures Waits(ClaimOf(st, call).0, session, t)
  {
    hide PruneExpired, Prepare, ClaimSync, StateExpired, LookupHistory, Trim, Remove, Admits, CatalogKept, BillingKept;
    var (id, fp) := (Trim(call.session), Trim(call.fingerprint));
    PrunedRecord(st, call.due, call.order, call.completedOrder, session);
    if id == session {
      AdmittedAnyway(Record(st, id), fp, call.opt);
      PrepareFinds(Record(st, id), id, Trim(call.conversation), fp, call.opt, call.billingUuid);
    } else if id in PrunedFor(st, call).0.states && StateExpired(PrunedFor(st, call).0.states[id], st.now, st.ttl) {
      RemovedRest(PrunedFor(st, call).0, id);
    }
  }

  lemma PutWaits(st: Store, o: Owner, s: Snapshot, session: string, t: Snapshot)
    requires Waits(st, session, t)
    requires o.session == session ==> s.pending == t.pending && s.batchIds == t.batchIds && s.fingerprint == t.fingerprint
    ensures Waits(Put(st, o, s), session, t)
  {}

  lemma SavesWait(st: Store, call: Call, session: string, t: Snapshot)
    requires call.CompletedCall? || call.HistoryCall? || call.PendingCall?
    requires Waits(st, session, t) && !Ends(st, call, session, t.fingerprint)
    ensures Waits(Call1(st, call).0, session, t)
  {
    hide CanonicalResults, Write, WriteHistory, E.Fill, Visible, HistoryRecord, CompletedRecord, Sync, ValidPending, NextBatch, Trim;
  }

  lemma FieldsWait(st: Store, call: Call, session: string, t: Snapshot)
    requires !call.CompletedCall? && !call.HistoryCall? && !call.PendingCall?
    requires Waits(st, session, t) && !Ends(st, call, session, t.fingerprint)
    ensures Waits(Call1(st, call).0, session, t)
  {
    hide Trim, U.UsageEvidence, Sync;
  }

  // What does not end the wait leaves the list, the ids and the account alone.
  lemma {:induction false} StepWaits(w: World, call: Call, session: string, t: Snapshot)
    requires Waits(w.store, session, t) && t.fingerprint != "" && !StateExpired(w.store.states[session], w.store.now, w.store.ttl)
    requires !Ends(w.store, call, session, t.fingerprint)
    ensures Waits(Step(w, call).store, session, t)
    decreases call
  {
    hide Open, Claim, Release, ResolvePending, StateStores.FindCompleted, SavePending, Call1, StateExpired, Owns, Trim;
    var st := w.store;
    match call {
      case OpenCall(order, completedOrder) => OpenWaits(st, order, completedOrder, session, t);
      case ClaimCall(_, _, _, _, _, _, _, _, _) => ClaimWaits(st, call, session, t);
      case ResolveCall(fp, ids, order, completedOrder, due) => ResolveWaits(st, fp, ids, order, completedOrder, due, session, t);
      case PendingCall(o, pending) =>
        SavesWait(st, call, session, t);
        PendingIsStep(w, call);
      case CompletedCall(_, _, _, _, _) => SavesWait(st, call, session, t);
      case HistoryCall(_, _, _) => SavesWait(st, call, session, t);
      case DiesIn(inner, left) =>
        if UpdatesIndex(inner) {
          StepWaits(w, inner, session, t);
        }
      case ReleaseCall(o) => ReleaseKeeps(st, o);
      case FindCall(fp, results, followUp, completedOrder, due) => FindKeeps(st, fp, results, followUp, completedOrder, due);
      case Tick(_) => TickKeeps(w, call);
      case Dies(_) => TickKeeps(w, call);
      case _ => FieldsWait(st, call, session, t);
    }
  }

  lemma PendingIsStep(w: World, call: Call)
    requires call.PendingCall?
    ensures Step(w, call).store == Call1(w.store, call).0
  {
    hide SavePending;
  }

  lemma OpenWaits(st: Store, order: seq<string>, completedOrder: seq<string>, session: string, t: Snapshot)
    requires Waits(st, session, t) && !StateExpired(st.states[session], st.now, st.ttl)
    ensures Waits(Open(st, order, completedOrder).0, session, t)
  {
    hide PruneExpired, Rebuild, StateExpired;
    PruningWaits(st, true, order, completedOrder, session, t);
  }

  lemma ResolveWaits(st: Store, fp: string, ids: seq<string>, order: seq<string>, completedOrder: seq<string>, due: bool,
      session: string, t: Snapshot)
    requires Waits(st, session, t) && !StateExpired(st.states[session], st.now, st.ttl)
    ensures Waits(ResolvePending(st, fp, ids, order, completedOrder, due).0, session, t)
  {
    hide PruneExpired, Resolve, StateExpired, Trim, Normalize;
    PruningWaits(st, due, order, completedOrder, session, t);
  }

  lemma {:induction false} RunWaits(w: World, calls: seq<Call>, session: string, t: Snapshot)
    requires Waits(w.store, session, t) && t.fingerprint != "" && Undisturbed(w, calls, session)
    ensures Waits(Run(w, calls).store, session, t)
  {
    hide Step, StateExpired, Ends;
    if calls != [] {
      RunWaits(w, calls[..|calls| - 1], session, t);
      StepWaits(Run(w, calls[..|calls| - 1]), calls[|calls| - 1], session, t);
    }
  }

  // ---------------------------------------------------------------------
  // Save, then resolve
  // ---------------------------------------------------------------------

  // No other session of the account waits for these ids.
  predicate NobodyElse(states: map<string, Snapshot>, fp: string, batch: seq<string>, session: string) {
    forall id :: id in states && id != session ==> !Pends(states[id], fp, batch)
  }

  lemma ScanFinds(states: map<string, Snapshot>, fp: string, batch: seq<string>, session: string)
    requires session in states && Pends(states[session], fp, batch) && NobodyElse(states, fp, batch, session)
    ensures Scan(states, fp, batch) == {session}
  {
    hide Pends;
  }

  // Ids that name what the session waits for find it, whatever their order and
  // padding; only a pruning that the index refuses is in the way.
  lemma WaitingIsResolved(st: Store, session: string, ids: seq<string>, order: seq<string>, completedOrder: seq<string>, due: bool)
    requires InStep(st) && Record(st, session).Some?
    requires var t := st.states[session];
             && t.pending != [] && Trim(t.fingerprint) == t.fingerprint != ""
             && Named(ids) == Elements(Batch(t)) != {} && NobodyElse(st.states, t.fingerprint, Batch(t), session)
    ensures ResolvePending(st, st.states[session].fingerprint, ids, order, completedOrder, due).1 ==
              if PruneExpired(st, due, order, completedOrder).1 then Resolution.Found(session) else IndexFailed
  {
    hide PruneExpired, Normalize, Trim, StateExpired, ResolveExact, CoveringBatch, AllListed, Increasing, Named;
    var (t, pruned) := (st.states[session], PruneExpired(st, due, order, completedOrder).0);
    NormalizeNames(ids);
    IncreasingIsCanonical(Normalize(ids), Batch(t));
    PrunedRecord(st, due, order, completedOrder, session);
    PruneExpiredInStep(st, due, order, completedOrder);
    assert NobodyElse(pruned.states, t.fingerprint, Batch(t), session);
    ScanFinds(pruned.states, t.fingerprint, Batch(t), session);
    ResolveIsScan(pruned.index, pruned.states, t.fingerprint, Batch(t));
    OneAnswer(ResolveExact(pruned.index, pruned.states, t.fingerprint, Batch(t)).1, session);
  }

  lemma OneAnswer(r: Resolution, session: string)
    requires Answers(r, {session})
    ensures r == Resolution.Found(session)
  {}

  // After an accepted save of a list, and any run that does not end the wait:
  // results for exactly those ids find this session.
  lemma SavedIsResolved(w: World, o: Owner, pending: seq<PendingTool>, calls: seq<Call>, ids: seq<string>,
      order: seq<string>, completedOrder: seq<string>, due: bool)
    requires Agrees(w) && pending != [] && SavePending(w.store, o, pending).1 == Ok && Trim(o.fingerprint) == o.fingerprint
    requires var w1 := Step(w, PendingCall(o, pending));
             AllowedRun(w1, calls) && Undisturbed(w1, calls, o.session) && !Run(w1, calls).unsynced
    requires o.session in w.store.states && Named(ids) == AwaitedIds(w.store.states[o.session], pending) != {}
    requires var st := Run(Step(w, PendingCall(o, pending)), calls).store;
             Record(st, o.session).Some? && NobodyElse(st.states, o.fingerprint, Normalize(ids), o.session)
    ensures var st := Run(Step(w, PendingCall(o, pending)), calls).store;
            ResolvePending(st, o.fingerprint, ids, order, completedOrder, due).1 ==
              if PruneExpired(st, due, order, completedOrder).1 then Resolution.Found(o.session) else IndexFailed
  {
    hide Run, AllowedRun, Undisturbed, Step, SavePending, ResolvePending, PruneExpired, StateExpired, Normalize, Named,
        Trim, Agrees, Increasing, AwaitedIds;
    var w1 := Step(w, PendingCall(o, pending));
    SavedWaits(w, o, pending);
    var t := w1.store.states[o.session];
    StepAgrees(w, PendingCall(o, pending));
    RunAgrees(w1, calls);
    RunWaits(w1, calls, o.session, t);
    var st := Run(w1, calls).store;
    AgreesInStep(Run(w1, calls));
    NormalizeNames(ids);
    SameBatch(st.states[o.session], t);
    IncreasingIsCanonical(Normalize(ids), Batch(t));
    WaitingIsResolved(st, o.session, ids, order, completedOrder, due);
  }

  lemma AgreesInStep(w: World)
    requires Agrees(w) && !w.unsynced
    ensures InStep(w.store)
  {
    hide AllListed;
  }

  lemma SameBatch(a: Snapshot, b: Snapshot)
    requires a.pending == b.pending && a.batchIds == b.batchIds
    ensures Batch(a) == Batch(b)
  {}

  lemma SavedWaits(w: World, o: Owner, pending: seq<PendingTool>)
    requires Agrees(w) && SavePending(w.store, o, pending).1 == Ok && o.session in w.store.states
    ensures var (st, w1) := (w.store, Step(w, PendingCall(o, pending)));
            && o.session in w1.store.states
            && var t := w1.store.states[o.session];
            && Waits(w1.store, o.session, t) && t.pending == pending && t.fingerprint == o.fingerprint != ""
            && Elements(Batch(t)) == AwaitedIds(st.states[o.session], pending)
  {
    hide SavePending, Batch, AwaitedIds, AllListed;
    SavedListIsAwaited(w.store, o, pending);
    OkIsOwned(w.store, o, pending);
  }

  lemma OkIsOwned(st: Store, o: Owner, pending: seq<PendingTool>)
    requires SavePending(st, o, pending).1 == Ok
    ensures o.session in st.states && st.states[o.session].fingerprint == o.fingerprint
  {
    hide Sync, ValidPending, NextBatch, Trim;
  }
}
