// The completed snapshots as completed_state.go keeps them: record and pointer
// files that methods read, rewrite and remove.
module CompletedStore {
  import opened Events
  import opened Strings
  import opened ToolIds
  import opened StateSnapshots
  import opened PendingIndexes
  import opened CompletedSnapshots

  method CanonicalToolResults(results: seq<ToolResult>) returns (c: Canonical)
    ensures c == CanonicalResults(results)
  {
    hide Trim, SortResults, ResultBytes;
    if |results| == 0 || |results| > MAX_PENDING_TOOLS {
      return Unusable;
    }
    var canonical: seq<ToolResult> := [];
    for k := 0 to |results|
      invariant Trimming(results[..k]) == Results(canonical)
    {
      assert results[..k + 1][..k] == results[..k];
      var item := results[k].(toolCallId := Trim(results[k].toolCallId));
      if item.toolCallId == "" || item.toolCallId in ResultIds(canonical) {
        TrimmingStops(results, k + 1);
        return Unusable;
      }
      canonical := canonical + [item];
      if ResultBytes(canonical) > MAX_PENDING_TOOL_BYTES {
        TrimmingStops(results, k + 1);
        return TooLarge;
      }
    }
    assert results[..|results|] == results;
    return Results(SortResults(canonical));
  }

  lemma {:induction false} TrimmingStops(results: seq<ToolResult>, k: nat)
    requires k <= |results| && !Trimming(results[..k]).Results?
    ensures Trimming(results) == Trimming(results[..k])
  {
    hide Trim, ResultBytes;
    if k == |results| {
      assert results[..k] == results;
    } else {
      assert results[..|results| - 1][..k] == results[..k];
      TrimmingStops(results[..|results| - 1], k);
    }
  }

  class CompletedFiles {
    const ttl: nat
    var records: map<string, Tombstone>
    var pointers: map<ToolKey, Pointer>

    function View(): Completed
      reads this
    {
      Completed(records, pointers)
    }

    constructor (ttl: nat, records: map<string, Tombstone>, pointers: map<ToolKey, Pointer>)
      ensures View() == Completed(records, pointers) && this.ttl == ttl
    {
      this.ttl, this.records, this.pointers := ttl, records, pointers;
    }

    method WriteToolPointers(fp: string, batch: seq<string>)
      modifies this`pointers
      ensures pointers == WritePointers(old(pointers), fp, batch, |batch|)
    {
      for k := 0 to |batch|
        invariant pointers == WritePointers(old(pointers), fp, batch, k)
      {
        pointers := pointers[(fp, batch[k]) := Pointer(fp, batch[k], batch)];
      }
    }

    method RemoveToolPointers(fp: string, batch: seq<string>)
      modifies this`pointers
      ensures pointers == RemovePointers(old(pointers), fp, batch, |batch|)
    {
      for k := 0 to |batch|
        invariant pointers == RemovePointers(old(pointers), fp, batch, k)
      {
        var key := (fp, batch[k]);
        if key in pointers && PointsTo(pointers[key], fp, batch[k], batch) {
          pointers := pointers - {key};
        }
      }
    }

    method WriteCompletedTombstone(t: Tombstone) returns (saved: Saved)
      modifies this
      ensures (View(), saved) == Write(old(View()), t)
    {
      hide Normalize, Trim, ResultKey, WritePointers;
      var key, merged := ResultKey(t.fingerprint, t.batchIds, t.followUp), t;
      if key in records {
        var existing := records[key];
        if existing.fingerprint != t.fingerprint || Normalize(existing.batchIds) != t.batchIds || Trim(existing.followUp) != Trim(t.followUp) {
          return IdentityMismatch;
        }
        if existing.digest != t.digest {
          return Conflict;
        }
        merged := merged.(events := existing.events, followUp := existing.followUp, results := existing.results);
        merged := merged.(billingRunId := existing.billingRunId, sessionId := existing.sessionId,
            conversationId := existing.conversationId);
        if !merged.ephemeral {
          merged := merged.(ephemeral := existing.ephemeral);
        }
      }
      records := records[key := merged];
      if Trim(merged.followUp) == "" {
        WriteToolPointers(t.fingerprint, t.batchIds);
      }
      return Written;
    }

    method RemoveExpiredTombstone(now: Time, fp: string, batch: seq<string>, followUp: string)
      modifies this
      ensures View() == RemoveExpired(old(View()), now, ttl, fp, batch, followUp)
    {
      hide Trim, ResultKey, RemovePointers, Expired;
      var key := ResultKey(fp, batch, followUp);
      if key !in records || !Expired(records[key], now, ttl) {
        return;
      }
      var t := records[key];
      records := records - {key};
      if Trim(t.followUp) == "" {
        RemoveToolPointers(fp, batch);
      }
    }

    method MatchCompletedTombstone(now: Time, fp: string, batch: seq<string>, results: seq<ToolResult>,
        followUp: string) returns (r: Lookup)
      modifies this
      ensures (View(), r) == Match(old(View()), now, ttl, fp, batch, results, followUp)
    {
      hide Normalize, Trim, ResultKey, Expired, RemoveExpired, ResultsForBatch, Digest;
      var read := ReadRecord(View(), fp, batch, followUp);
      if read.None? {
        return Miss;
      }
      var t := read.value;
      if t.fingerprint != fp || Normalize(t.batchIds) != batch || Trim(t.followUp) != Trim(followUp) {
        return Miss;
      }
      if Expired(t, now, ttl) {
        RemoveExpiredTombstone(now, fp, batch, followUp);
        return Miss;
      }
      var matched := ResultsForBatch(results, batch);
      if matched.None? {
        return Miss;
      }
      if t.digest != Digest(matched.value) {
        return DigestConflict;
      }
      return Hit(t);
    }

    method LookupCompletedCovering(now: Time, fp: string, submitted: seq<string>, results: seq<ToolResult>,
        followUp: string) returns (r: Lookup)
      modifies this
      ensures var v := CoverIds(old(View()), now, ttl, fp, submitted, results, followUp, |submitted|);
              View() == v.store && r == CoverAnswer(v)
    {
      hide Normalize, Match, Joined, Latest;
      var seen: set<string> := {};
      var conflict, found: seq<Tombstone> := false, [];
      for k := 0 to |submitted|
        invariant CoverIds(old(View()), now, ttl, fp, submitted, results, followUp, k) == Cover(View(), seen, conflict, found)
      {
        var id := submitted[k];
        if (fp, id) in pointers {
          var pointer := pointers[(fp, id)];
          var batch := Normalize(pointer.batchIds);
          if pointer.fingerprint == fp && SubsetOf(batch, submitted) && Joined(batch) !in seen {
            seen := seen + {Joined(batch)};
            var m := MatchCompletedTombstone(now, fp, batch, results, followUp);
            if m.DigestConflict? {
              conflict := true;
            }
            if m.Hit? {
              found := found + [m.record];
            }
          }
        }
      }
      if conflict {
        return DigestConflict;
      }
      r := LatestOfOneSession(found);
    }

    // LookupCompleted, once expired records are pruned.
    method FindCompleted(now: Time, fingerprint: string, given: seq<ToolResult>, followUp: string) returns (r: Lookup)
      modifies this
      ensures (View(), r) == LookupCompleted(old(View()), now, ttl, fingerprint, given, followUp)
    {
      hide Match, CoverIds, CoverAnswer, CanonicalResults, Trim, BatchIds, Decodes;
      var canonical := CanonicalToolResults(given);
      if canonical.TooLarge? {
        return Refused;
      }
      var fp := Trim(fingerprint);
      if canonical.Unusable? || fp == "" {
        return Miss;
      }
      var batch := BatchIds(canonical.results);
      r := MatchCompletedTombstone(now, fp, batch, canonical.results, followUp);
      if r == Miss {
        r := LookupCompletedCovering(now, fp, batch, canonical.results, followUp);
      }
      if r.Hit? && !Decodes(r.record) {
        return Refused;
      }
    }

    // The snapshot part of SaveHistory.
    method WriteHistorySnapshot(now: Time, t: Tombstone) returns (wrote: bool, saved: Saved)
      modifies this`records
      ensures (View(), wrote, saved) == WriteHistory(old(View()), now, ttl, t)
    {
      hide HistoryKey, Expired;
      var file := HistoryKey(t.fingerprint, t.requestKey);
      if file in records {
        var previous := records[file];
        if !Expired(previous, now, ttl) {
          if previous.requestKey != t.requestKey || previous.fingerprint != t.fingerprint {
            return false, IdentityMismatch;
          }
          return false, Written;
        }
      }
      records := records[file := t];
      return true, Written;
    }

    method PruneExpiredCompleted(now: Time, order: seq<string>)
      modifies this
      ensures View() == Prune(old(View()), now, ttl, order)
    {
      hide Normalize, Trim, RemovePointers, Expired;
      for k := 0 to |order|
        invariant View() == Prune(old(View()), now, ttl, order[..k])
      {
        assert order[..k + 1][..k] == order[..k];
        var key := order[k];
        if key in records && Expired(records[key], now, ttl) {
          var t := records[key];
          records := records - {key};
          if Trim(t.followUp) == "" {
            RemoveToolPointers(t.fingerprint, Normalize(t.batchIds));
          }
        }
      }
      assert order[..|order|] == order;
    }
  }

  method LatestOfOneSession(found: seq<Tombstone>) returns (r: Lookup)
    ensures r == CoverAnswer(Cover(Completed(map[], map[]), {}, false, found))
  {
    if found == [] {
      return Miss;
    }
    var latest := found[0];
    assert found[..1] == [found[0]];
    for k := 1 to |found|
      invariant latest == Latest(found[..k])
      invariant forall i :: 0 <= i < k ==> found[i].sessionId == found[0].sessionId
    {
      assert found[..k + 1][..k] == found[..k];
      if found[k].sessionId != found[0].sessionId {
        assert found[k] in found && found[0] in found;
        return TwoSessions;
      }
      if found[k].updatedAt > latest.updatedAt {
        latest := found[k];
      }
    }
    assert found[..|found|] == found;
    return Hit(latest);
  }
}
