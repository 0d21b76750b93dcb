// FileStateStore: session records, leases and indexes as state.go and
// completed_state.go read and write them, against the calls specified on values.
module FileStateStores {
  import opened Events
  import opened Strings
  import opened ToolIds
  import opened StateSnapshots
  import opened PendingIndexes
  import opened CompletedSnapshots
  import opened StateStores
  import opened PendingIndexStore
  import opened CompletedStore
  import E = EventSnapshots

  class FileStateStore {
    const ttl: nat
    const pendingFiles: PendingIndexFiles
    const completedFiles: CompletedFiles
    var now: Time
    var lastGc: Time
    var states: map<string, Snapshot>
    var leases: map<nat, string>
    var nextHandle: nat

    ghost predicate Valid()
      reads this
    {
      completedFiles.ttl == ttl
    }

    function View(): Store
      reads this, pendingFiles, completedFiles
    {
      Store(ttl, now, states, pendingFiles.View(), completedFiles.View(), leases, nextHandle)
    }

    // This process has not pruned within the last hour.
    predicate Due()
      reads this`now, this`lastGc
    {
      lastGc == ZERO_TIME || now - lastGc >= STATE_GC_INTERVAL
    }

    // The files of a directory, and no lock of this process.
    constructor (ttl: nat, now: Time, states: map<string, Snapshot>, index: Index, completed: Completed)
      ensures Valid() && fresh(pendingFiles) && fresh(completedFiles)
      ensures View() == Store(ttl, now, states, index, completed, map[], 1) && Due()
    {
      this.ttl, this.now, this.states, lastGc, leases, nextHandle := ttl, now, states, ZERO_TIME, map[], 1;
      pendingFiles := new PendingIndexFiles(index.records, index.pointers);
      completedFiles := new CompletedFiles(ttl, completed.records, completed.pointers);
    }

    method RemoveState(id: string) returns (ok: bool)
      requires Valid() && id in states
      modifies this`states, pendingFiles
      ensures Valid() && (View(), ok) == Remove(old(View()), id)
    {
      hide Sync;
      var s := states[id];
      states := states - {id};
      ok := pendingFiles.SyncPendingIndex(s.fingerprint, id, s.batchIds, []);
    }

    method PruneStateFiles(order: seq<string>) returns (ok: bool)
      requires Valid()
      modifies this`states, pendingFiles
      ensures Valid() && (View(), ok) == PruneStates(old(View()), order)
    {
      hide StateExpired, Remove;
      ok := true;
      for k := 0 to |order|
        invariant Valid() && ok && (View(), ok) == PruneStates(old(View()), order[..k])
      {
        assert order[..k + 1][..k] == order[..k];
        var id := order[k];
        if id in states && StateExpired(states[id], now, ttl) && id !in leases.Values {
          ok := RemoveState(id);
          if !ok {
            PruneStops(old(View()), order, k + 1);
            return;
          }
        }
      }
      assert order[..|order|] == order;
    }

    method PruneExpiredFiles(force: bool, order: seq<string>, completedOrder: seq<string>) returns (ok: bool)
      requires Valid()
      modifies this`states, this`lastGc, pendingFiles, completedFiles
      ensures Valid() && (View(), ok) == PruneExpired(old(View()), force || old(Due()), order, completedOrder)
      ensures lastGc == if ok && (force || old(Due())) then now else old(lastGc)
    {
      hide PruneStates, Prune;
      if !force && !Due() {
        return true;
      }
      ok := PruneStateFiles(order);
      if ok {
        lastGc := now;
        completedFiles.PruneExpiredCompleted(now, completedOrder);
      }
    }

    method SyncClaim(session: string, before: Snapshot, after: Snapshot) returns (ok: bool)
      modifies pendingFiles
      ensures Synced(pendingFiles.View(), ok) == ClaimSync(old(pendingFiles.View()), session, before, after)
    {
      hide Sync, Normalize;
      ok := true;
      if before.batchIds != [] && (before.fingerprint != after.fingerprint || Normalize(before.batchIds) != Normalize(after.batchIds)) {
        ok := pendingFiles.SyncPendingIndex(before.fingerprint, session, before.batchIds, []);
      }
      if ok && after.batchIds != [] {
        ok := pendingFiles.SyncPendingIndex(after.fingerprint, session, [], after.batchIds);
      }
    }

    method WriteClaim(session: string, before: Snapshot, ready: Prepared, fp: string, token: string)
      returns (r: ClaimResult)
      requires Valid() && ready.Ready?
      modifies this, pendingFiles
      ensures Valid() && (View(), r) == ClaimWrite(old(View()), session, before, ready, fp, token)
    {
      hide ClaimSync;
      var s := Owned(ready.snapshot, session, fp, token, now);
      states := states[session := s];
      var ok := SyncClaim(session, before, s);
      if !ok {
        return Rejected(IndexError);
      }
      var handle := nextHandle;
      leases, nextHandle := leases[handle := session], handle + 1;
      return Claimed(Owner("", session, s.generation, token, fp, s.conversationId, s.billingRunId, handle), s, ready.coldRebuild);
    }

    method ClaimUnderLease(session: string, conversation: string, fp: string, opt: ClaimOptions, token: string,
        billingUuid: string)
      returns (r: ClaimResult)
      requires Valid()
      modifies this, pendingFiles
      ensures Valid() && (View(), r) == ClaimLeased(old(View()), session, conversation, fp, opt, token, billingUuid)
    {
      hide Remove, Prepare, ClaimWrite, StateExpired, LookupHistory;
      if opt.historyKey != "" {
        var replay := LookupHistory(completedFiles.View(), now, ttl, fp, opt.historyKey);
        if replay.Hit? {
          return Replayed(replay.record);
        }
        if replay != Miss {
          return Rejected(Invalid);
        }
      }
      if session in states && StateExpired(states[session], now, ttl) {
        var ok := RemoveState(session);
        if !ok {
          return Rejected(IndexError);
        }
      }
      var created := session !in states;
      if created && opt.requireExisting {
        return Rejected(NotFound);
      }
      var current := NewSnapshot(session, conversation);
      if !created {
        current := states[session];
      }
      var ready := Prepare(current, created, conversation, fp, opt, billingUuid);
      if ready.Stopped? {
        return Rejected(ready.error);
      }
      r := WriteClaim(session, current, ready, fp, token);
    }

    method ClaimSession(sessionId: string, conversationId: string, fingerprint: string, opt: ClaimOptions,
        token: string, billingUuid: string,
                        order: seq<string>, completedOrder: seq<string>) returns (r: ClaimResult)
      requires Valid()
      modifies this, pendingFiles, completedFiles
      ensures Valid() && (View(), r) == Claim(old(View()), sessionId, conversationId, fingerprint, opt, token,
          billingUuid, order, completedOrder, old(Due()))
    {
      hide PruneExpired, ClaimLeased, Trim;
      var ok := PruneExpiredFiles(false, order, completedOrder);
      if !ok {
        return Rejected(IndexError);
      }
      var session, conversation, fp := Trim(sessionId), Trim(conversationId), Trim(fingerprint);
      if session == "" || conversation == "" || fp == "" {
        return Rejected(Invalid);
      }
      if session in leases.Values {
        return Rejected(LeaseHeld);
      }
      r := ClaimUnderLease(session, conversation, fp, opt, token, billingUuid);
    }

    // update, with the change as a function of the record.
    method Update(o: Owner, change: Snapshot -> Snapshot) returns (done: Done)
      requires Valid()
      modifies this`states
      ensures Valid() && (View(), done) == Change(old(View()), o, change)
    {
      hide Trim;
      if Trim(o.session) == "" || Trim(o.token) == "" || o.handle !in leases || o.session !in states {
        return Failed(RetiredOwner);
      }
      var current := states[o.session];
      if !OwnerMatches(current, o) {
        return Failed(RetiredOwner);
      }
      states := states[o.session := change(current).(updatedAt := now)];
      return Ok;
    }

    method SavePendingTools(o: Owner, pending: seq<PendingTool>) returns (done: Done)
      requires Valid()
      modifies this`states, pendingFiles
      ensures Valid() && (View(), done) == SavePending(old(View()), o, pending)
    {
      hide Owns, ValidPending, Sync, PendingToolIds;
      if !Owns(View(), o) {
        return Failed(RetiredOwner);
      }
      if !ValidPending(pending) {
        return Failed(Invalid);
      }
      OwnedRecord(View(), o);
      var current := states[o.session];
      var previousBatch := current.batchIds;
      if |pending| == 0 {
        current := current.(batchIds := []);
      } else if |current.batchIds| == 0 || |pending| > |current.pending| {
        current := current.(batchIds := PendingToolIds(pending));
      }
      states := states[o.session := current.(pending := pending, updatedAt := now)];
      var ok := pendingFiles.SyncPendingIndex(o.fingerprint, o.session, previousBatch, current.batchIds);
      return if ok then Ok else Failed(IndexError);
    }

    method SaveCompletedResults(o: Owner, results: seq<ToolResult>, events: seq<Event>, ephemeral: bool,
        followUp: string) returns (done: Done)
      requires Valid()
      modifies this`states, completedFiles
      ensures Valid() && (View(), done) == SaveCompleted(old(View()), o, results, events, ephemeral, followUp)
    {
      hide Owns, CanonicalResults, E.Fill, CompletedRecord, Write;
      var canonical := CanonicalToolResults(results);
      if canonical.Unusable? {
        return Failed(NoMatch);
      }
      if canonical.TooLarge? {
        return Failed(Invalid);
      }
      var persisted := E.FillSnapshot(events);
      if persisted.None? {
        return Failed(Invalid);
      }
      if !Owns(View(), o) {
        return Failed(RetiredOwner);
      }
      OwnedRecord(View(), o);
      var current := states[o.session];
      var hasPending := current.pending != [];
      var t := CompletedRecord(current, o, canonical.results, persisted.value, ephemeral, followUp, now);
      RefusedChangesNothing(completedFiles.View(), t);
      var saved := completedFiles.WriteCompletedTombstone(t);
      if saved == Conflict {
        return Failed(ResultConflict);
      }
      if saved == IdentityMismatch {
        return Failed(Invalid);
      }
      if followUp != "" {
        current := current.(followUp := followUp);
      }
      if ephemeral && !hasPending {
        current := current.(ephemeral := true, completedAt := now);
      }
      states := states[o.session := current.(updatedAt := now)];
      return Ok;
    }

    method SaveHistorySnapshot(o: Owner, key: string, events: seq<Event>) returns (done: Done)
      requires Valid()
      modifies this`states, completedFiles`records
      ensures Valid() && (View(), done) == SaveHistory(old(View()), o, key, events)
    {
      hide Owns, E.Fill, HistoryRecord, WriteHistory, Visible;
      if !(exists e :: e in events && Visible(e)) {
        return Failed(Invalid);
      }
      var persisted := E.FillSnapshot(events);
      if persisted.None? {
        return Failed(Invalid);
      }
      var handoff := exists e :: e in events && e.kind == ToolCallEvent;
      var record := HistoryRecord(o, key, persisted.value, handoff, now);
      if !Owns(View(), o) {
        return Failed(RetiredOwner);
      }
      OwnedRecord(View(), o);
      var current := states[o.session];
      var wrote, saved := completedFiles.WriteHistorySnapshot(now, record);
      if saved != Written {
        NothingWritten(old(View()).completed, now, ttl, record);
        return Failed(Invalid);
      }
      if wrote {
        current := current.(checkpoint := "", blobs := map[], pending := [], batchIds := []);
        current := current.(ephemeral := true, completedAt := now);
      }
      states := states[o.session := current.(updatedAt := now)];
      NothingWritten(old(View()).completed, now, ttl, record);
      return Ok;
    }

    method DeleteOwned(o: Owner) returns (done: Done)
      requires Valid()
      modifies this`states, pendingFiles
      ensures Valid() && (View(), done) == Delete(old(View()), o)
    {
      hide Remove;
      if o.handle !in leases {
        return Failed(RetiredOwner);
      }
      if o.session !in states {
        return Ok;
      }
      if !OwnerMatches(states[o.session], o) {
        return Failed(RetiredOwner);
      }
      var ok := RemoveState(o.session);
      return if ok then Ok else Failed(IndexError);
    }

    method ReleaseLease(o: Owner)
      modifies this`leases
      ensures View() == Release(old(View()), o)
    {
      leases := leases - {o.handle};
    }

    method ResolvePendingSession(fingerprint: string, ids: seq<string>, order: seq<string>,
        completedOrder: seq<string>) returns (r: Resolution)
      requires Valid()
      modifies this, pendingFiles, completedFiles
      ensures Valid() && (View(), r) == ResolvePending(old(View()), fingerprint, ids, order, completedOrder, old(Due()))
    {
      hide PruneExpired, Resolve, Trim, Normalize;
      var fp := Trim(fingerprint);
      if fp == "" || Normalize(ids) == [] {
        return NotPending;
      }
      var ok := PruneExpiredFiles(false, order, completedOrder);
      if !ok {
        return IndexFailed;
      }
      r := pendingFiles.ResolvePending(states, fp, ids);
    }

    // newFileStateStore: prune everything, then rebuild the pending index.
    method OpenDirectory(order: seq<string>, completedOrder: seq<string>) returns (ok: bool)
      requires Valid()
      modifies this, pendingFiles, completedFiles
      ensures Valid() && (View(), ok) == Open(old(View()), order, completedOrder)
    {
      hide PruneExpired, Rebuild;
      ok := PruneExpiredFiles(true, order, completedOrder);
      if ok {
        ok := pendingFiles.RebuildPendingIndex(states, order);
      }
    }
  }

  lemma OwnedRecord(st: Store, o: Owner)
    requires Owns(st, o)
    ensures o.session in st.states
  {}

  lemma RefusedChangesNothing(c: Completed, t: Tombstone)
    ensures Write(c, t).1 != Written ==> Write(c, t).0 == c
  {
    hide ResultKey, Trim, Normalize, WritePointers;
  }

  lemma NothingWritten(c: Completed, now: Time, ttl: nat, t: Tombstone)
    ensures var (d, wrote, saved) := WriteHistory(c, now, ttl, t); !wrote || saved != Written ==> d == c
  {
    hide HistoryKey, Expired;
  }

  lemma {:induction false} PruneStops(st: Store, order: seq<string>, k: nat)
    requires k <= |order| && !PruneStates(st, order[..k]).1
    ensures PruneStates(st, order) == PruneStates(st, order[..k])
  {
    hide StateExpired, Remove;
    if k == |order| {
      assert order[..k] == order;
    } else {
      assert order[..|order| - 1][..k] == order[..k];
      PruneStops(st, order[..|order| - 1], k);
    }
  }
}
