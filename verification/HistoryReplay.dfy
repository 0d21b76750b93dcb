// completed_request.go, manager.go: what a retried history request is answered
// with is what the finished one emitted.
module HistoryReplays {
  import opened Events
  import opened Strings
  import opened ToolIds
  import opened StateSnapshots
  import opened PendingIndexes
  import opened CompletedSnapshots
  import opened StateStores
  import opened StoreRuns
  import opened HistoryRuns
  import J = Json
  import R = StoreRetention
  import E = EventSnapshots

  // The record answers for the request of this account and key, with the events,
  // the owner and the time of one save.
  predicate Tells(rec: Tombstone, fp: string, key: string, o: Owner, events: seq<Event>, at: Time) {
    && rec.fingerprint == fp && rec.requestKey == key
    && E.Fill(events).Some? && rec.events == E.Fill(events).value.events
    && rec.sessionId == o.session && rec.conversationId == o.conversation
    && rec.billingRunId == o.billing && rec.requestSegmentId == o.segment
    && (rec.hasPending <==> exists e :: e in events && e.kind == ToolCallEvent)
    && rec.ephemeral && rec.updatedAt == at
  }

  // ---------------------------------------------------------------------
  // One save and one lookup
  // ---------------------------------------------------------------------

  lemma {:induction false} KeptKinds(events: seq<Event>)
    requires E.Fill(events).Some? && forall e :: e in events ==> e.kind != NoType
    ensures forall e :: e in E.Fill(events).value.events ==> e.kind != NoType
  {
    hide E.JoinText, E.JoinUsage, E.Retain, E.MergesText, E.MergesUsage;
    if events != [] {
      var (front, last) := (events[..|events| - 1], events[|events| - 1]);
      assert forall e :: e in front ==> e in events;
      KeptKinds(front);
      AppendedKinds(E.Opened(E.Fill(front).value), last);
    }
  }

  lemma AppendedKinds(s: E.Snap, e: Event)
    ensures s.events != [] && E.MergesText(s.events[|s.events| - 1], e) ==>
              forall x :: x in E.JoinText(s, e).events ==> x.kind == s.events[|s.events| - 1].kind || x in s.events
    ensures s.events != [] && E.MergesUsage(s.events[|s.events| - 1], e) ==>
              forall x :: x in E.JoinUsage(s, e).events ==> x.kind == s.events[|s.events| - 1].kind || x in s.events
    ensures forall x :: x in E.Retain(s, e).events ==> x.kind == e.kind || x in s.events
  {
    hide J.EventSize, J.ProgressFieldSize, J.Quote, J.Size;
  }

  // After a save that wrote its snapshot, and until that expires, the request is
  // answered with what was saved.
  lemma SavedHistoryIsFound(st: Store, o: Owner, key: string, events: seq<Event>, now: Time)
    requires Wrote(st, o, key, events) && st.now <= now <= st.now + COMPLETED_TTL
    requires forall e :: e in events ==> e.kind != NoType
    ensures var r := LookupHistory(SaveHistory(st, o, key, events).0.completed, now, st.ttl, o.fingerprint, key);
            r.Hit? && Tells(r.record, o.fingerprint, key, o, events, st.now)
    ensures var r := LookupHistory(SaveHistory(st, o, key, events).0.completed, now, st.ttl, o.fingerprint, key);
            E.Lossless(events) ==> r.record.events == E.Compact(events)
  {
    hide HistoryKey, E.Fill, E.Lossless, E.Compact, SaveHistory, Wrote;
    WrittenTells(st, o, key, events);
    KeptKinds(events);
    var rec := SaveHistory(st, o, key, events).0.completed.records[HistoryKey(o.fingerprint, key)];
    ToldIsCompact(rec, o.fingerprint, key, o, events, st.now);
  }

  // A save that is accepted writes exactly when no unexpired snapshot of the key is
  // there.
  lemma WrittenIffNotLive(st: Store, o: Owner, key: string, events: seq<Event>)
    requires SaveHistory(st, o, key, events).1 == Ok
    ensures Wrote(st, o, key, events) <==> !LiveSnapshot(st, o.fingerprint, key)
  {
    hide HistoryKey, E.Fill, Visible, Owns;
    var file := HistoryKey(o.fingerprint, key);
    var next := SaveHistory(st, o, key, events).0;
    if !LiveSnapshot(st, o.fingerprint, key) && file in st.completed.records {
      assert next.completed.records[file].updatedAt == st.now;
    }
  }

  // ---------------------------------------------------------------------
  // Every interleaving
  // ---------------------------------------------------------------------

  predicate Committed(s: System, rec: Tombstone, fp: string, key: string) {
    exists c :: c in s.commits && c.fp == fp && c.key == key && Tells(rec, fp, key, c.owner, c.events, c.savedAt)
  }

  // Every stored history snapshot is one that was committed.
  predicate OnlyCommitted(s: System, completed: Completed) {
    forall k :: k in completed.records && completed.records[k].requestKey != "" ==>
      Committed(s, completed.records[k], completed.records[k].fingerprint, completed.records[k].requestKey)
  }

  predicate AnsweredAs(s: System, q: Request) {
    q.phase.Replayed? ==> Committed(s, q.phase.record, q.fp, q.key)
  }

  predicate ReplayInv(s: System) {
    && OnlyCommitted(s, s.world.store.completed)
    && forall i :: 0 <= i < |s.requests| ==> AnsweredAs(s, s.requests[i])
  }

  // Only SaveHistory writes records that carry a request key.
  predicate NoNewRequests(c: Completed, d: Completed) {
    forall k :: k in d.records && d.records[k].requestKey != "" ==> k in c.records && c.records[k] == d.records[k]
  }

  lemma GoneAddsNothing(c: Completed, d: Completed, now: Time, ttl: nat)
    requires OnlyExpiredGone(c, d, now, ttl)
    ensures NoNewRequests(c, d)
  {
    hide Expired;
  }

  lemma SavedResultsAddNothing(st: Store, o: Owner, results: seq<ToolResult>, events: seq<Event>, ephemeral: bool,
      followUp: string)
    ensures NoNewRequests(st.completed, SaveCompleted(st, o, results, events, ephemeral, followUp).0.completed)
  {
    hide CanonicalResults, Owns, E.Fill, Normalize, Trim, Digest, ResultKey, WritePointers, BatchIds;
  }

  lemma StepAddsNothing(w: World, call: Call)
    requires !call.HistoryCall?
    ensures NoNewRequests(w.store.completed, Step(w, call).store.completed)
  {
    hide NoNewRequests, Step, OnlyExpiredGone;
    if call.CompletedCall? {
      R.SaveIsStep(w, call);
      SavedResultsAddNothing(w.store, call.owner, call.results, call.events, call.ephemeral, call.followUp);
    } else {
      R.StepGone(w, call);
      GoneAddsNothing(w.store.completed, Step(w, call).store.completed, w.store.now, w.store.ttl);
    }
  }

  lemma FewerAreCommitted(s: System, t: System, completed: Completed)
    requires OnlyCommitted(s, s.world.store.completed) && NoNewRequests(s.world.store.completed, completed)
    requires forall c :: c in s.commits ==> c in t.commits
    ensures OnlyCommitted(t, completed)
  {
    hide Tells;
  }

  // What a lookup answers with was committed.
  lemma LookupIsCommitted(s: System, completed: Completed, now: Time, ttl: nat, fp: string, key: string)
    requires OnlyCommitted(s, completed) && key != ""
    ensures var r := LookupHistory(completed, now, ttl, fp, key); r.Hit? ==> Committed(s, r.record, fp, key)
  {
    hide HistoryKey, Expired, Tells;
  }

  lemma SameAnswers(s: System, t: System)
    requires (forall i :: 0 <= i < |s.requests| ==> AnsweredAs(s, s.requests[i])) && |t.requests| == |s.requests|
    requires forall c :: c in s.commits ==> c in t.commits
    requires forall i :: 0 <= i < |s.requests| ==> t.requests[i] == s.requests[i] || AnsweredAs(t, t.requests[i])
    ensures forall i :: 0 <= i < |t.requests| ==> AnsweredAs(t, t.requests[i])
  {
    hide Tells;
    forall i | 0 <= i < |t.requests|
      ensures AnsweredAs(t, t.requests[i])
    {
      assert AnsweredAs(s, s.requests[i]);
    }
  }

  lemma QuietMoveKeeps(s: System, t: System)
    requires ReplayInv(s) && NoNewRequests(s.world.store.completed, t.world.store.completed) && t.commits == s.commits
    requires |t.requests| == |s.requests|
    requires forall i :: 0 <= i < |s.requests| ==> t.requests[i] == s.requests[i] || AnsweredAs(t, t.requests[i])
    ensures ReplayInv(t)
  {
    hide Committed, NoNewRequests, OnlyCommitted;
    FewerAreCommitted(s, t, t.world.store.completed);
    SameAnswers(s, t);
  }

  lemma SameStoreAddsNothing(c: Completed)
    ensures NoNewRequests(c, c)
  {}

  lemma LeasedReplays(st: Store, session: string, conversation: string, fp: string, opt: ClaimOptions, token: string,
      billingUuid: string)
    ensures var (replay, r) := (LookupHistory(st.completed, st.now, st.ttl, fp, opt.historyKey),
                                ClaimLeased(st, session, conversation, fp, opt, token, billingUuid).1);
            r.Replayed? ==> replay.Hit? && r.record == replay.record
  {
    hide LookupHistory, Prepare, ClaimSync, StateExpired, Remove;
  }

  lemma ClaimReplays(s: System, m: Move)
    requires ReplayInv(s) && Inv(s) && m.ClaimLease? && Enabled(s, m)
    ensures var q := s.requests[m.r];
            var r := ClaimFor(s.world.store, HistoryClaim(q, m)).1;
            r.Replayed? ==> Committed(s, r.record, q.fp, q.key)
  {
    hide PruneExpired, Trim, HistorySession, OnlyExpiredGone, Expired, Committed, LeasesApart, Remembered, Separated,
        StartedLate, OneHandle, NoNewRequests, AnsweredAs, LookupHistory, ClaimLeased;
    var (st, q) := (s.world.store, s.requests[m.r]);
    var c := HistoryClaim(q, m);
    assert Identified(q);
    R.PruneExpiredGone(st, m.due, m.order, m.completedOrder);
    var pruned := PruneExpired(st, m.due, m.order, m.completedOrder).0;
    GoneAddsNothing(st.completed, pruned.completed, st.now, st.ttl);
    FewerAreCommitted(s, s, pruned.completed);
    LookupIsCommitted(s, pruned.completed, st.now, st.ttl, q.fp, q.key);
    LeasedReplays(pruned, Trim(c.session), Trim(c.conversation), Trim(c.fingerprint), c.opt, c.token, c.billingUuid);
  }

  lemma EndRunKeeps(s: System, r: nat, events: seq<Event>)
    requires ReplayInv(s) && Inv(s) && Enabled(s, EndRun(r, events))
    ensures ReplayInv(Next(s, EndRun(r, events)))
  {
    hide HistoryKey, Visible, Owns, E.Fill, LeasesApart, Remembered, Separated, OneHandle, Expired, HistorySession, Trim;
    var (st, q, o) := (s.world.store, s.requests[r], s.requests[r].phase.owner);
    assert StartedLate(s, q) && Identified(q);
    R.SaveIsStep(s.world, HistoryCall(o, q.key, events));
    var t := Next(s, EndRun(r, events));
    assert forall c :: c in s.commits ==> c in t.commits;
    if Wrote(st, o, q.key, events) {
      assert t.commits[|s.commits|] == Commit(q.fp, q.key, q.phase.claimedAt, st.now, o, events);
      WrittenTells(st, o, q.key, events);
      CommitIsCommitted(s, t, o, q, events);
    } else {
      UnwrittenKeeps(st, o, q.key, events);
      FewerAreCommitted(s, t, t.world.store.completed);
    }
    SameAnswers(s, t);
  }

  lemma WrittenTells(st: Store, o: Owner, key: string, events: seq<Event>)
    requires Wrote(st, o, key, events)
    ensures var (file, next) := (HistoryKey(o.fingerprint, key), SaveHistory(st, o, key, events).0);
            && file in next.completed.records
            && next.completed.records == st.completed.records[file := next.completed.records[file]]
            && Tells(next.completed.records[file], o.fingerprint, key, o, events, st.now)
  {
    hide HistoryKey, Visible, Owns, E.Fill, Expired;
  }

  lemma UnwrittenKeeps(st: Store, o: Owner, key: string, events: seq<Event>)
    requires !Wrote(st, o, key, events)
    ensures NoNewRequests(st.completed, SaveHistory(st, o, key, events).0.completed)
  {
    hide HistoryKey, Visible, Owns, E.Fill, Expired;
  }

  lemma CommitIsCommitted(s: System, t: System, o: Owner, q: Request, events: seq<Event>)
    requires OnlyCommitted(s, s.world.store.completed) && o.fingerprint == q.fp
    requires (forall c :: c in s.commits ==> c in t.commits) && |t.commits| == |s.commits| + 1
    requires var c := t.commits[|s.commits|];
             c.fp == q.fp && c.key == q.key && c.owner == o && c.events == events && c.savedAt == s.world.store.now
    requires var (file, next) := (HistoryKey(o.fingerprint, q.key), t.world.store.completed);
             && file in next.records && next.records == s.world.store.completed.records[file := next.records[file]]
             && Tells(next.records[file], q.fp, q.key, o, events, s.world.store.now)
    ensures OnlyCommitted(t, t.world.store.completed)
  {
    hide HistoryKey;
    var next := t.world.store.completed;
    var file := HistoryKey(o.fingerprint, q.key);
    forall k | k in next.records && next.records[k].requestKey != ""
      ensures Committed(t, next.records[k], next.records[k].fingerprint, next.records[k].requestKey)
    {
      if k == file {
        assert t.commits[|s.commits|] in t.commits;
      } else {
        assert Committed(s, next.records[k], next.records[k].fingerprint, next.records[k].requestKey);
      }
    }
  }

  lemma MoveKeepsReplays(s: System, m: Move)
    requires ReplayInv(s) && Inv(s) && Enabled(s, m)
    ensures ReplayInv(Next(s, m))
  {
    hide Inv, HistoryClaim, LookupHistory, Claim, Step, Wrote, Trim, Session, NoNewRequests, OnlyCommitted, Committed, ReplayInv;
    SameStoreAddsNothing(s.world.store.completed);
    match m {
      case Arrive(process, fp, key) => ArriveKeepsReplays(s, Request(process, fp, key, Arrived));
      case LookUp(r) => LookUpKeepsReplays(s, r);
      case Reserve(r) => QuietMoveKeeps(s, Next(s, m));
      case ClaimLease(r, _, _, _, _, _, _, _) => ClaimKeepsReplays(s, m);
      case EndRun(r, events) => EndRunKeeps(s, r, events);
      case FailRun(r) => QuietMoveKeeps(s, Next(s, m));
      case ReleaseRun(r) =>
        StepAddsNothing(s.world, ReleaseCall(s.requests[r].phase.owner));
        QuietMoveKeeps(s, Next(s, m));
      case Outside(call) =>
        StepAddsNothing(s.world, call);
        QuietMoveKeeps(s, Next(s, m));
    }
  }

  lemma ArriveKeepsReplays(s: System, q: Request)
    requires ReplayInv(s) && q.phase.Arrived?
    ensures ReplayInv(s.(requests := s.requests + [q]))
  {
    hide Tells;
    var t := s.(requests := s.requests + [q]);
    forall i | 0 <= i < |t.requests|
      ensures AnsweredAs(t, t.requests[i])
    {
      assert i < |s.requests| ==> AnsweredAs(s, s.requests[i]);
    }
  }

  lemma LookUpKeepsReplays(s: System, r: nat)
    requires ReplayInv(s) && Inv(s) && Enabled(s, LookUp(r))
    ensures ReplayInv(Next(s, LookUp(r)))
  {
    hide HistoryKey, LookupHistory, Tells, LeasesApart, Remembered, Separated, OneHandle, StartedLate, NoNewRequests, Trim;
    var (st, q) := (s.world.store, s.requests[r]);
    assert Identified(q);
    LookupIsCommitted(s, st.completed, st.now, st.ttl, q.fp, q.key);
    SameStoreAddsNothing(st.completed);
    QuietMoveKeeps(s, Next(s, LookUp(r)));
  }

  lemma ClaimKeepsReplays(s: System, m: Move)
    requires ReplayInv(s) && Inv(s) && m.ClaimLease? && Enabled(s, m)
    ensures ReplayInv(Next(s, m))
  {
    hide HistoryClaim, LookupHistory, Claim, Step, Trim, NoNewRequests, Tells, LeasesApart, Remembered, Separated, OneHandle,
        StartedLate, OnlyCommitted, Identified, Session;
    var call := HistoryClaim(s.requests[m.r], m);
    assert call.ClaimCall? by { HistoryClaimIsClaim(s.requests[m.r], m); }
    ClaimReplays(s, m);
    StepAddsNothing(s.world, call);
    QuietMoveKeeps(s, Next(s, m));
  }

  lemma {:induction false} ReachKeepsReplays(s: System, moves: seq<Move>)
    requires ReplayInv(s) && Inv(s)
    ensures ReplayInv(Reach(s, moves))
  {
    hide Inv, Enabled, Next, ReplayInv;
    if moves != [] {
      ReachKeepsReplays(s, moves[..|moves| - 1]);
      HistoryRuns.ReachKeepsInv(s, moves[..|moves| - 1]);
      var before := Reach(s, moves[..|moves| - 1]);
      if Enabled(before, moves[|moves| - 1]) {
        MoveKeepsReplays(before, moves[|moves| - 1]);
      }
    }
  }

  // From files without history snapshots, in every interleaving of any number of
  // managers: a request that is answered by a replay is answered with the events,
  // as compacted, of a generation that stored them for its account and key.
  lemma ReplaysAreCommitted(s: System, moves: seq<Move>, r: nat)
    requires Initial(s) && forall k :: k in s.world.store.completed.records ==> s.world.store.completed.records[k].requestKey == ""
    requires var t := Reach(s, moves); r < |t.requests| && t.requests[r].phase.Replayed?
    ensures var (t, q) := (Reach(s, moves), Reach(s, moves).requests[r]);
            exists c :: && c in t.commits && c.fp == q.fp && c.key == q.key
                        && Tells(q.phase.record, q.fp, q.key, c.owner, c.events, c.savedAt)
                        && (E.Lossless(c.events) ==> q.phase.record.events == E.Compact(c.events))
  {
    hide Reach, Tells, E.Fill, E.Lossless, E.Compact;
    InitialInv(s);
    ReachKeepsReplays(s, moves);
    var (t, q) := (Reach(s, moves), Reach(s, moves).requests[r]);
    assert AnsweredAs(t, q);
    var c :| c in t.commits && c.fp == q.fp && c.key == q.key && Tells(q.phase.record, q.fp, q.key, c.owner, c.events, c.savedAt);
    ToldIsCompact(q.phase.record, q.fp, q.key, c.owner, c.events, c.savedAt);
  }

  lemma ToldIsCompact(rec: Tombstone, fp: string, key: string, o: Owner, events: seq<Event>, at: Time)
    requires Tells(rec, fp, key, o, events, at)
    ensures E.Lossless(events) ==> rec.events == E.Compact(events)
  {
    hide E.Fill, E.Lossless, E.Compact;
    if E.Lossless(events) {
      E.FillCounts(events);
    }
  }
}
