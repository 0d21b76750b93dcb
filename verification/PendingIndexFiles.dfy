// The pending index as state.go keeps it: records and pointers that methods read,
// rewrite and remove.
module PendingIndexStore {
  import opened ToolIds
  import opened StateSnapshots
  import opened PendingIndexes

  class PendingIndexFiles {
    var records: map<BatchKey, IndexRecord>
    var pointers: map<ToolKey, Pointer>

    function View(): Index
      reads this
    {
      Index(records, pointers)
    }

    // Whatever an earlier process left behind.
    constructor (records: map<BatchKey, IndexRecord>, pointers: map<ToolKey, Pointer>)
      ensures View() == Index(records, pointers)
    {
      this.records, this.pointers := records, pointers;
    }

    method WriteToolPointers(fp: string, batch: seq<string>)
      modifies this`pointers
      ensures pointers == WritePointers(old(pointers), fp, batch, |batch|)
    {
      for k := 0 to |batch|
        invariant pointers == WritePointers(old(pointers), fp, batch, k)
      {
        pointers := pointers[(fp, batch[k]) := Pointer(fp, batch[k], batch)];
      }
    }

    method RemoveToolPointers(fp: string, batch: seq<string>)
      modifies this`pointers
      ensures pointers == RemovePointers(old(pointers), fp, batch, |batch|)
    {
      for k := 0 to |batch|
        invariant pointers == RemovePointers(old(pointers), fp, batch, k)
      {
        var key := (fp, batch[k]);
        if key in pointers {
          var p := pointers[key];
          if p.fingerprint == fp && p.toolCallId == batch[k] && Normalize(p.batchIds) == batch {
            pointers := pointers - {key};
          }
        }
      }
    }

    method MutatePendingIndex(fp: string, batch: seq<string>, session: string, add: bool) returns (ok: bool)
      modifies this
      ensures Synced(View(), ok) == Mutate(old(View()), fp, batch, session, add)
    {
      hide Normalize, WritePointers, RemovePointers, SortedSet;
      var key := (fp, batch);
      var record := IndexRecord(fp, batch, []);
      if key in records {
        record := records[key];
      }
      if record.fingerprint != fp || Normalize(record.batchIds) != batch {
        return false;
      }
      var sessions: seq<string> := [];
      for k := 0 to |record.sessions|
        invariant sessions == Without(record.sessions[..k], session)
      {
        assert record.sessions[..k + 1][..k] == record.sessions[..k];
        if record.sessions[k] != session {
          sessions := sessions + [record.sessions[k]];
        }
      }
      assert record.sessions[..|record.sessions|] == record.sessions;
      sessions := SortedSet(sessions + if add then [session] else []);
      if sessions == [] {
        records := records - {key};
        RemoveToolPointers(fp, batch);
        return true;
      }
      if add {
        WriteToolPointers(fp, batch);
      }
      if |sessions| > MAX_STATE_FILES {
        return false;
      }
      records := records[key := IndexRecord(fp, batch, sessions)];
      return true;
    }

    method SyncPendingIndex(fp: string, session: string, previous: seq<string>, next: seq<string>) returns (ok: bool)
      modifies this
      ensures Synced(View(), ok) == Sync(old(View()), fp, session, previous, next)
    {
      hide Normalize, Mutate;
      var p, n := Normalize(previous), Normalize(next);
      ok := true;
      if p != [] && p != n {
        ok := MutatePendingIndex(fp, p, session, false);
        if !ok {
          return;
        }
      }
      if n != [] {
        ok := MutatePendingIndex(fp, n, session, true);
      }
    }

    method RebuildPendingIndex(states: map<string, Snapshot>, order: seq<string>) returns (ok: bool)
      modifies this
      ensures Synced(View(), ok) == Rebuild(old(View()), states, order)
    {
      hide Sync, RawBatch;
      ok := true;
      for k := 0 to |order|
        invariant ok && Synced(View(), ok) == Rebuild(old(View()), states, order[..k])
      {
        assert order[..k + 1][..k] == order[..k];
        var id := order[k];
        if id in states && states[id].pending != [] {
          ok := SyncPendingIndex(states[id].fingerprint, id, [], RawBatch(states[id]));
          if !ok {
            RebuildStops(old(View()), states, order, k + 1);
            return;
          }
        }
      }
      assert order[..|order|] == order;
    }

    method ReadMatches(states: map<string, Snapshot>, fp: string, batch: seq<string>, ids: seq<string>)
      returns (matches: seq<string>)
      ensures matches == Matches(states, fp, batch, ids)
    {
      hide Pends;
      matches := [];
      for k := 0 to |ids|
        invariant matches == Matches(states, fp, batch, ids[..k])
      {
        assert ids[..k + 1][..k] == ids[..k];
        if ids[k] in states && Pends(states[ids[k]], fp, batch) {
          matches := matches + [ids[k]];
        }
      }
      assert ids[..|ids|] == ids;
    }

    method Repair(states: map<string, Snapshot>, fp: string, batch: seq<string>, ids: seq<string>) returns (ok: bool)
      modifies this
      ensures Synced(View(), ok) == DropStale(old(View()), states, fp, batch, ids)
    {
      hide Mutate, Live;
      ok := true;
      for k := 0 to |ids|
        invariant ok && Synced(View(), ok) == DropStale(old(View()), states, fp, batch, ids[..k])
      {
        assert ids[..k + 1][..k] == ids[..k];
        if !Live(states, fp, batch, ids[k]) {
          ok := MutatePendingIndex(fp, batch, ids[k], false);
          if !ok {
            RepairStops(old(View()), states, fp, batch, ids, k + 1);
            return;
          }
        }
      }
      assert ids[..|ids|] == ids;
    }

    method ResolvePendingExact(states: map<string, Snapshot>, fp: string, batch: seq<string>) returns (r: Resolution)
      modifies this
      ensures (View(), r) == ResolveExact(old(View()), states, fp, batch)
    {
      hide Normalize, Matches, DropStale;
      var key := (fp, batch);
      if key !in records {
        return NotPending;
      }
      var record := records[key];
      if record.fingerprint != fp || Normalize(record.batchIds) != batch || record.sessions == [] {
        return NotPending;
      }
      var matches := ReadMatches(states, fp, batch, record.sessions);
      var ok := Repair(states, fp, batch, record.sessions);
      if !ok {
        return IndexFailed;
      }
      if matches == [] {
        return NotPending;
      }
      if |matches| > 1 {
        return Ambiguous;
      }
      return Found(matches[0]);
    }

    method PendingCoveringBatch(fp: string, submitted: seq<string>) returns (c: Covering)
      ensures c == CoveringBatch(View(), fp, submitted, |submitted|)
    {
      hide Normalize;
      var candidate: seq<string> := [];
      for k := 0 to |submitted|
        invariant CoveringBatch(View(), fp, submitted, k) == Covering(candidate)
      {
        var key := (fp, submitted[k]);
        if key in pointers {
          var pointer, batch := pointers[key], Normalize(pointers[key].batchIds);
          if pointer.fingerprint == fp && SubsetOf(batch, submitted) {
            if candidate == [] {
              candidate := batch;
            } else if candidate != batch {
              TwoBatchesStay(View(), fp, submitted, k + 1, |submitted|);
              return TwoBatches;
            }
          }
        }
      }
      return Covering(candidate);
    }

    // ResolvePending, once expired records are pruned.
    method ResolvePending(states: map<string, Snapshot>, fp: string, ids: seq<string>) returns (r: Resolution)
      modifies this
      ensures (View(), r) == Resolve(old(View()), states, fp, Normalize(ids))
    {
      hide Normalize, ResolveExact, CoveringBatch;
      var submitted := Normalize(ids);
      if fp == "" || submitted == [] {
        return NotPending;
      }
      r := ResolvePendingExact(states, fp, submitted);
      if r != NotPending {
        return;
      }
      var covering := PendingCoveringBatch(fp, submitted);
      if covering.TwoBatches? {
        return Ambiguous;
      }
      if covering.batch == [] || covering.batch == submitted {
        return NotPending;
      }
      r := ResolvePendingExact(states, fp, covering.batch);
    }
  }

  lemma {:induction false} RebuildStops(x: Index, states: map<string, Snapshot>, order: seq<string>, k: nat)
    requires k <= |order| && !Rebuild(x, states, order[..k]).ok
    ensures Rebuild(x, states, order) == Rebuild(x, states, order[..k])
  {
    hide Sync;
    if k == |order| {
      assert order[..k] == order;
    } else {
      assert order[..|order| - 1][..k] == order[..k];
      RebuildStops(x, states, order[..|order| - 1], k);
    }
  }

  lemma {:induction false} RepairStops(x: Index, states: map<string, Snapshot>, fp: string, batch: seq<string>,
      ids: seq<string>, k: nat)
    requires k <= |ids| && !DropStale(x, states, fp, batch, ids[..k]).ok
    ensures DropStale(x, states, fp, batch, ids) == DropStale(x, states, fp, batch, ids[..k])
  {
    hide Mutate;
    if k == |ids| {
      assert ids[..k] == ids;
    } else {
      assert ids[..|ids| - 1][..k] == ids[..k];
      RepairStops(x, states, fp, batch, ids[..|ids| - 1], k);
    }
  }

  lemma {:induction false} TwoBatchesStay(x: Index, fp: string, submitted: seq<string>, k: nat, n: nat)
    requires k <= n <= |submitted| && CoveringBatch(x, fp, submitted, k).TwoBatches?
    ensures CoveringBatch(x, fp, submitted, n).TwoBatches?
  {
    hide Normalize;
    if k < n {
      TwoBatchesStay(x, fp, submitted, k, n - 1);
    }
  }
}
