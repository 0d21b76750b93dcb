// completed_state.go: what retried tool results are answered with is what their
// request emitted.
module CompletedReplays {
  import opened Events
  import opened Strings
  import opened ToolIds
  import opened StateSnapshots
  import opened PendingIndexes
  import opened CompletedSnapshots
  import opened StateStores
  import R = StoreRetention
  import H = HistoryReplays
  import E = EventSnapshots

  // The record answers for these results with the events, and in the names, of one
  // save by the owner of a session.
  predicate Answers(rec: Tombstone, s: Snapshot, o: Owner, results: seq<ToolResult>, events: seq<Event>, ephemeral: bool,
      followUp: string, at: Time) {
    && E.Fill(events).Some? && rec.events == E.Fill(events).value.events
    && CanonicalResults(results).Results? && rec.results == CanonicalResults(results).results
    && rec.fingerprint == o.fingerprint && Elements(rec.batchIds) == Named(ResultIds(rec.results))
    && rec.sessionId == o.session && rec.conversationId == s.conversationId
    && rec.billingRunId == (if o.billing == "" then s.billingRunId else o.billing) && rec.requestSegmentId == o.segment
    && (rec.hasPending <==> s.pending != []) && rec.followUp == Trim(followUp) && rec.requestKey == ""
    && rec.ephemeral == ephemeral && rec.updatedAt == at
  }

  // After the first accepted save for these results and this follow-up, the same
  // results in any order are answered with what was saved.
  lemma SavedResultsAreFound(st: Store, o: Owner, results: seq<ToolResult>, again: seq<ToolResult>, events: seq<Event>,
      ephemeral: bool, followUp: string)
    requires SaveCompleted(st, o, results, events, ephemeral, followUp).1 == Ok
    requires ResultKey(o.fingerprint, BatchIds(CanonicalResults(results).results), followUp) !in st.completed.records
    requires CanonicalResults(again).Results? && multiset(Trimming(results).results) == multiset(Trimming(again).results)
    requires Trim(o.fingerprint) == o.fingerprint != "" && forall e :: e in events ==> e.kind != NoType
    ensures o.session in st.states
    ensures var next := SaveCompleted(st, o, results, events, ephemeral, followUp).0;
            var r := LookupCompleted(next.completed, st.now, st.ttl, o.fingerprint, again, followUp).1;
            r.Hit? && Answers(r.record, st.states[o.session], o, results, events, ephemeral, followUp, st.now)
            && (E.Lossless(events) ==> r.record.events == E.Compact(events))
  {
    hide CanonicalResults, E.Fill, ResultKey, BatchIds, Digest, Trim, WritePointers, Normalize, Trimming, LookupCompleted,
        E.Lossless, E.Compact, Named;
    var rs := CanonicalResults(results).results;
    R.TrimmedFollowUp(o.fingerprint, BatchIds(rs), followUp);
    H.KeptKinds(events);
    if E.Lossless(events) {
      E.FillCounts(events);
    }
    BatchIsNamed(rs);
    var t := CompletedRecord(st.states[o.session], o, rs, E.Fill(events).value.events, ephemeral, followUp, st.now);
    SaveThenLookup(st.completed, t, st.now, st.ttl, results, again);
    LookupTrims(SaveCompleted(st, o, results, events, ephemeral, followUp).0.completed, st.now, st.ttl, o.fingerprint, again, followUp);
  }

  lemma BatchIsNamed(results: seq<ToolResult>)
    ensures Elements(BatchIds(results)) == Named(ResultIds(results))
  {
    hide Normalize, Named;
    NormalizeNames(ResultIds(results));
  }

  // Lookups read a follow-up as it is stored.
  lemma LookupTrims(c: Completed, now: Time, ttl: nat, fp: string, results: seq<ToolResult>, followUp: string)
    ensures LookupCompleted(c, now, ttl, fp, results, Trim(followUp)) == LookupCompleted(c, now, ttl, fp, results, followUp)
  {
    hide Trim, Normalize, ResultKey, Joined, Digest, CanonicalResults, ResultsForBatch, RemovePointers, BatchIds;
    TrimStrips(followUp);
    TrimStrips(Trim(followUp));
    assert Trim(Trim(followUp)) == Trim(followUp);
    forall d, fp: string, batch: seq<string>, rs
      ensures Match(d, now, ttl, fp, batch, rs, Trim(followUp)) == Match(d, now, ttl, fp, batch, rs, followUp)
    {
      R.TrimmedFollowUp(fp, batch, followUp);
    }
    forall d, fp: string, submitted: seq<string>, rs, k: nat | k <= |submitted|
      ensures CoverIds(d, now, ttl, fp, submitted, rs, Trim(followUp), k) == CoverIds(d, now, ttl, fp, submitted, rs, followUp, k)
    {
      CoverTrims(d, now, ttl, fp, submitted, rs, followUp, k);
    }
  }

  lemma {:induction false} CoverTrims(c: Completed, now: Time, ttl: nat, fp: string, submitted: seq<string>,
      results: seq<ToolResult>, followUp: string, k: nat)
    requires k <= |submitted|
    requires forall d, fp: string, batch: seq<string>, rs ::
               Match(d, now, ttl, fp, batch, rs, Trim(followUp)) == Match(d, now, ttl, fp, batch, rs, followUp)
    ensures CoverIds(c, now, ttl, fp, submitted, results, Trim(followUp), k) == CoverIds(c, now, ttl, fp, submitted, results, followUp, k)
  {
    hide Match, Normalize, Trim, Joined;
    if k > 0 {
      CoverTrims(c, now, ttl, fp, submitted, results, followUp, k - 1);
    }
  }

  // What else an accepted save changes: the session's follow-up, if there is one,
  // and that a finished session without pending tools may go.
  lemma SavedResultsMark(st: Store, o: Owner, results: seq<ToolResult>, events: seq<Event>, ephemeral: bool, followUp: string)
    requires SaveCompleted(st, o, results, events, ephemeral, followUp).1 == Ok
    ensures o.session in st.states
    ensures var (next, s) := (SaveCompleted(st, o, results, events, ephemeral, followUp).0, st.states[o.session]);
            var ends := ephemeral && s.pending == [];
            && o.session in next.states
            && next.states[o.session] == s.(followUp := if followUp != "" then followUp else s.followUp,
                                            ephemeral := ends || s.ephemeral, completedAt := if ends then st.now else s.completedAt,
                                            updatedAt := st.now)
            && next == st.(completed := next.completed, states := st.states[o.session := next.states[o.session]])
  {
    hide CanonicalResults, E.Fill, Write, CompletedRecord, Trim;
  }
}
