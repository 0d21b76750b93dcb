// state.go: the pending-batch index with its per-tool pointers.
module PendingIndexes {
  import opened Events
  import opened ToolIds
  import opened StateSnapshots

  const MAX_STATE_FILES: nat := 10000

  // File names are hashes of the fingerprint and the batch (or tool id) joined
  // by NUL.  They are modelled by those fields, which NUL-free values make
  // equivalent; the records still carry, and the code still checks, both.
  type BatchKey = (string, seq<string>)
  type ToolKey = (string, string)

  datatype IndexRecord = IndexRecord(fingerprint: string, batchIds: seq<string>, sessions: seq<string>)

  datatype Pointer = Pointer(fingerprint: string, toolCallId: string, batchIds: seq<string>)

  datatype Index = Index(records: map<BatchKey, IndexRecord>, pointers: map<ToolKey, Pointer>)

  datatype Synced = Synced(index: Index, ok: bool)

  // Different files for different NUL-free identities.
  lemma FilesAreDistinct(f: string, b: seq<string>, g: string, c: seq<string>)
    requires NulFreeFields([f] + b) && NulFreeFields([g] + c)
    ensures Joined([f] + b) == Joined([g] + c) <==> (f, b) == (g, c)
  {
    if Joined([f] + b) == Joined([g] + c) {
      JoinedIsInjective([f] + b, [g] + c);
      assert ([f] + b)[0] == ([g] + c)[0] && ([f] + b)[1..] == ([g] + c)[1..];
    }
  }

  // ---------------------------------------------------------------------
  // Tool pointers
  // ---------------------------------------------------------------------

  function WritePointers(pointers: map<ToolKey, Pointer>, fp: string, batch: seq<string>, k: nat): map<ToolKey, Pointer>
    requires k <= |batch|
  {
    if k == 0 then pointers
    else WritePointers(pointers, fp, batch, k - 1)[(fp, batch[k - 1]) := Pointer(fp, batch[k - 1], batch)]
  }

  predicate PointsTo(p: Pointer, fp: string, id: string, batch: seq<string>) {
    p.fingerprint == fp && p.toolCallId == id && Normalize(p.batchIds) == batch
  }

  function RemovePointers(pointers: map<ToolKey, Pointer>, fp: string, batch: seq<string>, k: nat):
    map<ToolKey, Pointer>
    requires k <= |batch|
  {
    if k == 0 then pointers
    else
      var rest := RemovePointers(pointers, fp, batch, k - 1);
      var key := (fp, batch[k - 1]);
      if key in rest && PointsTo(rest[key], fp, batch[k - 1], batch) then rest - {key} else rest
  }

  // ---------------------------------------------------------------------
  // Index records
  // ---------------------------------------------------------------------

  function Without(ids: seq<string>, id: string): (r: seq<string>)
    ensures Elements(r) == Elements(ids) - {id} && |r| <= |ids|
  {
    if ids == [] then []
    else
      ElementsOfLast(ids);
      var rest := Without(ids[..|ids| - 1], id);
      ElementsOfLast(rest + [ids[|ids| - 1]]);
      assert (rest + [ids[|ids| - 1]])[..|rest|] == rest;
      if ids[|ids| - 1] == id then rest else rest + [ids[|ids| - 1]]
  }

  function SetSessions(current: seq<string>, session: string, add: bool): (r: seq<string>)
    ensures Increasing(r) && Elements(r) == if add then Elements(current) + {session} else Elements(current) - {session}
  {
    SortedSet(Without(current, session) + if add then [session] else [])
  }

  function RecordAt(x: Index, fp: string, batch: seq<string>): IndexRecord {
    if (fp, batch) in x.records then x.records[(fp, batch)] else IndexRecord(fp, batch, [])
  }

  // mutatePendingIndex, on a normalized batch.
  function Mutate(x: Index, fp: string, batch: seq<string>, session: string, add: bool): Synced {
    var record := RecordAt(x, fp, batch);
    if record.fingerprint != fp || Normalize(record.batchIds) != batch then Synced(x, false)
    else
      var sessions := SetSessions(record.sessions, session, add);
      if sessions == [] then
        Synced(Index(x.records - {(fp, batch)}, RemovePointers(x.pointers, fp, batch, |batch|)), true)
      else
        var y := if add then x.(pointers := WritePointers(x.pointers, fp, batch, |batch|)) else x;
        if |sessions| > MAX_STATE_FILES then Synced(y, false)
        else Synced(y.(records := y.records[(fp, batch) := IndexRecord(fp, batch, sessions)]), true)
  }

  // syncPendingIndex
  function Sync(x: Index, fp: string, session: string, previous: seq<string>, next: seq<string>): Synced {
    var (p, n) := (Normalize(previous), Normalize(next));
    var removed := if p != [] && p != n then Mutate(x, fp, p, session, false) else Synced(x, true);
    if !removed.ok || n == [] then removed else Mutate(removed.index, fp, n, session, true)
  }

  // rebuildPendingIndex: `order` is the directory listing.
  function Rebuild(x: Index, states: map<string, Snapshot>, order: seq<string>): Synced {
    if order == [] then Synced(x, true)
    else
      var (before, id) := (Rebuild(x, states, order[..|order| - 1]), order[|order| - 1]);
      if !before.ok || id !in states || states[id].pending == [] then before
      else Sync(before.index, states[id].fingerprint, id, [], RawBatch(states[id]))
  }

  // ---------------------------------------------------------------------
  // Resolving a batch
  // ---------------------------------------------------------------------

  datatype Resolution = Found(session: string) | NotPending | Ambiguous | IndexFailed

  predicate Live(states: map<string, Snapshot>, fp: string, batch: seq<string>, id: string) {
    id in states && Pends(states[id], fp, batch)
  }

  function Matches(states: map<string, Snapshot>, fp: string, batch: seq<string>, ids: seq<string>): seq<string> {
    if ids == [] then []
    else
      Matches(states, fp, batch, ids[..|ids| - 1])
      + if Live(states, fp, batch, ids[|ids| - 1]) then [ids[|ids| - 1]] else []
  }

  // The self-repair: listed sessions that no longer wait are dropped.
  function DropStale(x: Index, states: map<string, Snapshot>, fp: string, batch: seq<string>,
      ids: seq<string>): Synced {
    if ids == [] then Synced(x, true)
    else
      var (before, id) := (DropStale(x, states, fp, batch, ids[..|ids| - 1]), ids[|ids| - 1]);
      if !before.ok || Live(states, fp, batch, id) then before else Mutate(before.index, fp, batch, id, false)
  }

  // resolvePendingExact
  function ResolveExact(x: Index, states: map<string, Snapshot>, fp: string, batch: seq<string>): (Index, Resolution) {
    var record := RecordAt(x, fp, batch);
    if record.fingerprint != fp || Normalize(record.batchIds) != batch || record.sessions == [] then (x, NotPending)
    else
      var matches := Matches(states, fp, batch, record.sessions);
      var repaired := DropStale(x, states, fp, batch, record.sessions);
      if !repaired.ok then (repaired.index, IndexFailed)
      else if matches == [] then (repaired.index, NotPending)
      else if |matches| > 1 then (repaired.index, Ambiguous)
      else (repaired.index, Found(matches[0]))
  }

  datatype Covering = Covering(batch: seq<string>) | TwoBatches

  // pendingCoveringBatch
  function CoveringBatch(x: Index, fp: string, submitted: seq<string>, k: nat): Covering
    requires k <= |submitted|
  {
    if k == 0 then Covering([])
    else
      var (before, key) := (CoveringBatch(x, fp, submitted, k - 1), (fp, submitted[k - 1]));
      if before.TwoBatches? || key !in x.pointers then before
      else
        var (pointer, batch) := (x.pointers[key], Normalize(x.pointers[key].batchIds));
        if pointer.fingerprint != fp || !SubsetOf(batch, submitted) then before
        else if before.batch == [] then Covering(batch)
        else if before.batch != batch then TwoBatches
        else before
  }

  // ResolvePending after pruning, on a trimmed fingerprint and the normalized ids.
  function Resolve(x: Index, states: map<string, Snapshot>, fp: string, submitted: seq<string>): (Index, Resolution) {
    if fp == "" || submitted == [] then (x, NotPending)
    else
      var (y, exact) := ResolveExact(x, states, fp, submitted);
      if !exact.NotPending? then (y, exact)
      else
        var covering := CoveringBatch(y, fp, submitted, |submitted|);
        if covering.TwoBatches? then (y, Ambiguous)
        else if covering.batch == [] || covering.batch == submitted then (y, NotPending)
        else ResolveExact(y, states, fp, covering.batch)
  }

  // ---------------------------------------------------------------------
  // The index agrees with the sessions
  // ---------------------------------------------------------------------

  // A session is listed under its fingerprint and batch.
  predicate Lists(x: Index, fp: string, batch: seq<string>, id: string) {
    && (fp, batch) in x.records
    && var r := x.records[(fp, batch)];
    && r.fingerprint == fp && Normalize(r.batchIds) == batch
    && id in r.sessions && Increasing(r.sessions) && |r.sessions| <= MAX_STATE_FILES
  }

  // The file of a waiting session is listed; anything else in the index may be stale.
  predicate Listed(x: Index, id: string, s: Snapshot) {
    s.pending != [] && Batch(s) != [] ==> Lists(x, s.fingerprint, Batch(s), id)
  }

  predicate AllListed(x: Index, states: map<string, Snapshot>) {
    forall id :: id in states ==> Listed(x, id, states[id])
  }

  // An index update lists what it adds and unlists only what it removes, also
  // when it fails.
  lemma MutateKeeps(x: Index, fp: string, batch: seq<string>, session: string, add: bool, f: string, b: seq<string>,
      id: string)
    requires IsBatch(batch) && Lists(x, f, b, id) && ((f, b, id) == (fp, batch, session) ==> add)
    ensures Lists(Mutate(x, fp, batch, session, add).index, f, b, id)
  {
    hide Normalize, RemovePointers, WritePointers, SetSessions;
    NormalizeIsIdempotent(batch);
    if (f, b) == (fp, batch) {
      var r := SetSessions(x.records[(fp, batch)].sessions, session, add);
      assert id in Elements(r);
    }
  }

  lemma MutateAdds(x: Index, fp: string, batch: seq<string>, session: string)
    requires Mutate(x, fp, batch, session, true).ok && IsBatch(batch)
    ensures Lists(Mutate(x, fp, batch, session, true).index, fp, batch, session)
  {
    hide Normalize, RemovePointers, WritePointers;
    NormalizeIsIdempotent(batch);
    assert session in Elements(SetSessions(RecordAt(x, fp, batch).sessions, session, true));
  }

  lemma SyncKeeps(x: Index, fp: string, session: string, previous: seq<string>, next: seq<string>, f: string,
      b: seq<string>, id: string)
    requires Lists(x, f, b, id) && ((f, b, id) == (fp, Normalize(previous), session) ==> Normalize(next) == b)
    ensures Lists(Sync(x, fp, session, previous, next).index, f, b, id)
  {
    hide Mutate, Lists, Normalize;
    var (p, n) := (Normalize(previous), Normalize(next));
    if p != [] && p != n {
      MutateKeeps(x, fp, p, session, false, f, b, id);
    }
    var removed := if p != [] && p != n then Mutate(x, fp, p, session, false) else Synced(x, true);
    if n != [] {
      MutateKeeps(removed.index, fp, n, session, true, f, b, id);
    }
  }

  lemma SyncAdds(x: Index, fp: string, session: string, previous: seq<string>, next: seq<string>)
    requires Sync(x, fp, session, previous, next).ok && Normalize(next) != []
    ensures Lists(Sync(x, fp, session, previous, next).index, fp, Normalize(next), session)
  {
    hide Mutate, Lists, Normalize;
    var (p, n) := (Normalize(previous), Normalize(next));
    var removed := if p != [] && p != n then Mutate(x, fp, p, session, false) else Synced(x, true);
    MutateAdds(removed.index, fp, n, session);
  }

  // From any index contents, a rebuild that succeeds lists every waiting session
  // it came across.
  lemma {:induction false} RebuildLists(x: Index, states: map<string, Snapshot>, order: seq<string>)
    requires Rebuild(x, states, order).ok
    ensures forall id :: id in order && id in states ==> Listed(Rebuild(x, states, order).index, id, states[id])
  {
    hide Sync, Lists, Normalize;
    if order != [] {
      var n := |order| - 1;
      RebuildLists(x, states, order[..n]);
      var before := Rebuild(x, states, order[..n]).index;
      var last := order[n];
      if last in states && states[last].pending != [] {
        var raw := RawBatch(states[last]);
        forall id | id in order && id in states
          ensures Listed(Rebuild(x, states, order).index, id, states[id])
        {
          if id == last {
            if Batch(states[id]) != [] {
              SyncAdds(before, states[id].fingerprint, id, [], raw);
            }
          } else {
            assert id in order[..n];
            if states[id].pending != [] && Batch(states[id]) != [] {
              SyncKeeps(before, states[last].fingerprint, last, [], raw, states[id].fingerprint, Batch(states[id]), id);
            }
          }
        }
      } else {
        forall id | id in order && id in states
          ensures Listed(Rebuild(x, states, order).index, id, states[id])
        {
          if id != last {
            assert id in order[..n];
          }
        }
      }
    }
  }

  // ---------------------------------------------------------------------
  // Index answers and a scan of all sessions
  // ---------------------------------------------------------------------

  function Scan(states: map<string, Snapshot>, fp: string, batch: seq<string>): set<string> {
    set id | id in states && Pends(states[id], fp, batch)
  }

  // The answer a scan gives.
  predicate Answers(r: Resolution, waiting: set<string>) {
    match r
    case NotPending => waiting == {}
    case Found(id) => waiting == {id}
    case Ambiguous => exists a, b :: a in waiting && b in waiting && a != b
    case IndexFailed => false
  }

  lemma {:induction false} MatchesAreLive(states: map<string, Snapshot>, fp: string, batch: seq<string>,
      ids: seq<string>)
    ensures Elements(Matches(states, fp, batch, ids)) == Elements(ids) * Scan(states, fp, batch)
    ensures Increasing(ids) ==> Increasing(Matches(states, fp, batch, ids))
  {
    hide Pends, Increasing;
    if ids == [] {
      assert Increasing([]) by { NothingIncreases(); }
    } else {
      var n := |ids| - 1;
      MatchesAreLive(states, fp, batch, ids[..n]);
      ElementsOfLast(ids);
      var m := Matches(states, fp, batch, ids[..n]);
      PrefixIncreases(ids);
      if Live(states, fp, batch, ids[n]) {
        ElementsOfLast(m + [ids[n]]);
        assert (m + [ids[n]])[..|m|] == m;
        if Increasing(ids) {
          MatchAppends(ids, m);
        }
      } else {
        assert m + [] == m;
      }
    }
  }

  lemma NothingIncreases()
    ensures Increasing([])
  {}

  lemma PrefixIncreases(ids: seq<string>)
    requires ids != []
    ensures Increasing(ids) ==> Increasing(ids[..|ids| - 1])
  {}

  lemma MatchAppends(ids: seq<string>, m: seq<string>)
    requires ids != [] && Increasing(ids) && Increasing(m) && Elements(m) <= Elements(ids[..|ids| - 1])
    ensures Increasing(m + [ids[|ids| - 1]])
  {
    hide Less;
    var n := |ids| - 1;
    forall i | 0 <= i < |m|
      ensures Less(m[i], ids[n])
    {
      assert m[i] in Elements(m);
      var k :| 0 <= k < n && ids[k] == m[i];
    }
  }

  lemma IncreasingAnswers(matches: seq<string>, waiting: set<string>)
    requires Increasing(matches) && Elements(matches) == waiting
    ensures Answers(if matches == [] then NotPending else if |matches| > 1 then Ambiguous else Found(matches[0]), waiting)
  {
    if |matches| == 1 {
      assert waiting == {matches[0]};
    } else if |matches| > 1 {
      assert Less(matches[0], matches[1]);
      LessIsStrict(matches[0], matches[1]);
      assert matches[0] in waiting && matches[1] in waiting;
    }
  }

  lemma {:induction false} DropStaleKeeps(x: Index, states: map<string, Snapshot>, fp: string, batch: seq<string>,
      ids: seq<string>)
    requires IsBatch(batch) && AllListed(x, states)
    ensures AllListed(DropStale(x, states, fp, batch, ids).index, states)
  {
    hide Mutate, Lists, Normalize;
    if ids != [] {
      var (n, last) := (|ids| - 1, ids[|ids| - 1]);
      DropStaleKeeps(x, states, fp, batch, ids[..n]);
      var before := DropStale(x, states, fp, batch, ids[..n]).index;
      FailedRemovalChangesNothing(before, fp, batch, last);
      if DropStale(x, states, fp, batch, ids[..n]).ok && !Live(states, fp, batch, last) && Mutate(before, fp, batch, last, false).ok {
        forall id | id in states && states[id].pending != [] && Batch(states[id]) != []
          ensures Lists(Mutate(before, fp, batch, last, false).index, states[id].fingerprint, Batch(states[id]), id)
        {
          assert Listed(before, id, states[id]);
          MutateKeeps(before, fp, batch, last, false, states[id].fingerprint, Batch(states[id]), id);
        }
      }
    }
  }

  lemma FailedRemovalChangesNothing(x: Index, fp: string, batch: seq<string>, session: string)
    ensures !Mutate(x, fp, batch, session, false).ok ==> Mutate(x, fp, batch, session, false).index == x
  {
    hide Normalize, SetSessions, RemovePointers;
  }

  // While a session is listed the repair cannot fail.
  lemma {:induction false} RepairSucceeds(x: Index, states: map<string, Snapshot>, fp: string, batch: seq<string>,
      ids: seq<string>, id: string)
    requires IsBatch(batch) && Lists(x, fp, batch, id) && Live(states, fp, batch, id)
    ensures var r := DropStale(x, states, fp, batch, ids); r.ok && Lists(r.index, fp, batch, id)
  {
    hide Normalize, Pends, SetSessions, RemovePointers;
    if ids != [] {
      var (n, last) := (|ids| - 1, ids[|ids| - 1]);
      RepairSucceeds(x, states, fp, batch, ids[..n], id);
      var before := DropStale(x, states, fp, batch, ids[..n]).index;
      if !Live(states, fp, batch, last) {
        RemovalShrinks(before.records[(fp, batch)].sessions, last);
        MutateKeeps(before, fp, batch, last, false, fp, batch, id);
      }
    }
  }

  lemma RemovalShrinks(sessions: seq<string>, session: string)
    requires Increasing(sessions)
    ensures |SetSessions(sessions, session, false)| <= |sessions|
  {
    IncreasingSize(sessions);
    IncreasingSize(SetSessions(sessions, session, false));
    SubsetSize(Elements(sessions) - {session}, Elements(sessions));
  }

  lemma {:induction false} IncreasingSize(ids: seq<string>)
    requires Increasing(ids)
    ensures |Elements(ids)| == |ids|
  {
    if ids != [] {
      var n := |ids| - 1;
      IncreasingSize(ids[..n]);
      ElementsOfLast(ids);
      forall i | 0 <= i < n
        ensures ids[i] != ids[n]
      {
        LessIsStrict(ids[i], ids[n]);
      }
      assert ids[n] !in Elements(ids[..n]);
    }
  }

  lemma SubsetSize<T>(a: set<T>, b: set<T>)
    requires a <= b
    ensures |a| <= |b|
  {
    assert b == a + (b - a);
  }

  // The record names sessions, and more than the limit of them besides the first.
  predicate Overfull(x: Index, fp: string, batch: seq<string>) {
    var r := RecordAt(x, fp, batch);
    && r.fingerprint == fp && Normalize(r.batchIds) == batch
    && r.sessions != [] && |Elements(r.sessions) - {r.sessions[0]}| > MAX_STATE_FILES
  }

  // A record of which the self-repair cannot even drop the first session: nobody
  // who is listed still waits, and one session less is still over the limit.
  predicate Stuck(x: Index, states: map<string, Snapshot>, fp: string, batch: seq<string>) {
    Scan(states, fp, batch) == {} && Overfull(x, fp, batch)
  }

  // Reading through the index fails exactly on a stuck record, and otherwise
  // answers what a scan of all sessions answers.  Its repairs keep every waiting
  // session listed.
  lemma ResolveIsScan(x: Index, states: map<string, Snapshot>, fp: string, batch: seq<string>)
    requires AllListed(x, states) && IsBatch(batch) && batch != []
    ensures var (y, r) := ResolveExact(x, states, fp, batch);
            && (if Stuck(x, states, fp, batch) then r == IndexFailed else Answers(r, Scan(states, fp, batch)))
            && AllListed(y, states)
  {
    hide Normalize, DropStale, Matches, Pends, Elements, IsBatch, Scan, AllListed, Increasing, Answers;
    var sessions := RecordAt(x, fp, batch).sessions;
    if Scan(states, fp, batch) != {} {
      SomebodyIsFound(x, states, fp, batch);
    } else {
      NobodyIsFound(states, fp, batch, sessions);
      if sessions != [] && RecordAt(x, fp, batch).fingerprint == fp && Normalize(RecordAt(x, fp, batch).batchIds) == batch {
        StaleRepair(x, states, fp, batch, sessions);
      }
    }
    DropStaleKeeps(x, states, fp, batch, sessions);
  }

  lemma SomebodyIsFound(x: Index, states: map<string, Snapshot>, fp: string, batch: seq<string>)
    requires AllListed(x, states) && IsBatch(batch) && batch != [] && Scan(states, fp, batch) != {}
    ensures Answers(ResolveExact(x, states, fp, batch).1, Scan(states, fp, batch))
  {
    hide Normalize, DropStale, Matches, Pends;
    var waiting := Scan(states, fp, batch);
    var sessions := RecordAt(x, fp, batch).sessions;
    MatchesAreLive(states, fp, batch, sessions);
    var id :| id in waiting;
    ListedWaiting(x, states, fp, batch, id);
    RepairSucceeds(x, states, fp, batch, sessions, id);
    WaitingAreMatched(x, states, fp, batch);
    IncreasingAnswers(Matches(states, fp, batch, sessions), waiting);
  }

  lemma NobodyIsFound(states: map<string, Snapshot>, fp: string, batch: seq<string>, sessions: seq<string>)
    requires Scan(states, fp, batch) == {}
    ensures Matches(states, fp, batch, sessions) == [] && Answers(NotPending, Scan(states, fp, batch))
  {
    hide Matches, Scan;
    MatchesAreLive(states, fp, batch, sessions);
    NothingMatched(Matches(states, fp, batch, sessions));
  }

  // Repairing a record that lists nobody who waits stands and falls with dropping
  // the first session.
  lemma {:induction false} StaleRepair(x: Index, states: map<string, Snapshot>, fp: string, batch: seq<string>,
      ids: seq<string>)
    requires IsBatch(batch) && ids != [] && Scan(states, fp, batch) == {}
    requires RecordAt(x, fp, batch).fingerprint == fp && Normalize(RecordAt(x, fp, batch).batchIds) == batch
    ensures var r := DropStale(x, states, fp, batch, ids);
            && (r.ok <==> |Elements(RecordAt(x, fp, batch).sessions) - {ids[0]}| <= MAX_STATE_FILES)
            && (r.ok ==> Repairable(r.index, fp, batch))
  {
    hide Normalize, Live, Mutate, Elements, IsBatch, Scan;
    var (n, last) := (|ids| - 1, ids[|ids| - 1]);
    NobodyIsLive(states, fp, batch, last);
    if n == 0 {
      RemovalFits(x, fp, batch, last);
    } else {
      StaleRepair(x, states, fp, batch, ids[..n]);
      var before := DropStale(x, states, fp, batch, ids[..n]);
      if before.ok {
        RemovalFits(before.index, fp, batch, last);
      }
    }
  }

  lemma NobodyIsLive(states: map<string, Snapshot>, fp: string, batch: seq<string>, id: string)
    requires Scan(states, fp, batch) == {}
    ensures !Live(states, fp, batch, id)
  {
    assert id !in Scan(states, fp, batch);
  }

  predicate Repairable(x: Index, fp: string, batch: seq<string>) {
    var r := RecordAt(x, fp, batch);
    r.fingerprint == fp && Normalize(r.batchIds) == batch && |Elements(r.sessions)| <= MAX_STATE_FILES
  }

  lemma RemovalFits(x: Index, fp: string, batch: seq<string>, session: string)
    requires IsBatch(batch) && RecordAt(x, fp, batch).fingerprint == fp && Normalize(RecordAt(x, fp, batch).batchIds) == batch
    ensures var (m, ids) := (Mutate(x, fp, batch, session, false), Elements(RecordAt(x, fp, batch).sessions));
            && (m.ok <==> |ids - {session}| <= MAX_STATE_FILES) && (m.ok ==> Repairable(m.index, fp, batch))
            && |ids - {session}| <= |ids|
  {
    hide Normalize, RemovePointers, SetSessions;
    NormalizeIsIdempotent(batch);
    var ids := Elements(RecordAt(x, fp, batch).sessions);
    var left := SetSessions(RecordAt(x, fp, batch).sessions, session, false);
    assert Elements(left) == ids - {session} && Increasing(left);
    IncreasingSize(left);
    SubsetSize(ids - {session}, ids);
    assert left == [] ==> Elements(left) == {};
  }

  lemma FirstIsElement(matches: seq<string>)
    requires matches != []
    ensures matches[0] in Elements(matches)
  {}

  lemma NothingMatched(matches: seq<string>)
    requires Elements(matches) == {}
    ensures matches == []
  {
    if matches != [] {
      FirstIsElement(matches);
    }
  }

  lemma ListedWaiting(x: Index, states: map<string, Snapshot>, fp: string, batch: seq<string>, id: string)
    requires AllListed(x, states) && batch != [] && id in Scan(states, fp, batch)
    ensures Lists(x, fp, batch, id)
  {
    assert Listed(x, id, states[id]);
  }

  lemma WaitingAreMatched(x: Index, states: map<string, Snapshot>, fp: string, batch: seq<string>)
    requires AllListed(x, states) && batch != [] && Scan(states, fp, batch) != {}
    ensures Scan(states, fp, batch) <= Elements(RecordAt(x, fp, batch).sessions)
    ensures Increasing(RecordAt(x, fp, batch).sessions)
  {
    forall id | id in Scan(states, fp, batch)
      ensures Lists(x, fp, batch, id)
    {
      ListedWaiting(x, states, fp, batch, id);
    }
    var id :| id in Scan(states, fp, batch);
    assert Lists(x, fp, batch, id);
  }

  // One session name for each length.
  function LongerNames(n: nat): (names: seq<string>)
    ensures |names| == n && forall i :: 0 <= i < n ==> names[i] == seq(i + 1, _ => 'a')
  {
    seq(n, i requires 0 <= i < n => seq(i + 1, _ => 'a'))
  }

  lemma {:induction false} LongerIsLater(i: nat, j: nat)
    requires i < j
    ensures Less(seq(i, _ => 'a'), seq(j, _ => 'a'))
  {
    var (a, b) := (seq(i, _ => 'a'), seq(j, _ => 'a'));
    if i > 0 {
      assert a[1..] == seq(i - 1, _ => 'a') && b[1..] == seq(j - 1, _ => 'a');
      LongerIsLater(i - 1, j - 1);
    }
  }

  lemma LongerNamesDiffer(n: nat)
    requires n > 0
    ensures var names := LongerNames(n); |Elements(names) - {names[0]}| == n - 1
  {
    var names := LongerNames(n);
    forall i, j | 0 <= i < j < n
      ensures Less(names[i], names[j])
    {
      LongerIsLater(i + 1, j + 1);
    }
    IncreasingSize(names);
    assert names[0] in Elements(names);
  }

  // Without any session left, a record of n sessions is stuck from the limit and
  // two more on.
  lemma StaleRecordFails(fp: string, n: nat)
    ensures var x := Index(map[(fp, ["call"]) := IndexRecord(fp, ["call"], LongerNames(n))], map[]);
            ResolveExact(x, map[], fp, ["call"]).1 == if n > MAX_STATE_FILES + 1 then IndexFailed else NotPending
  {
    hide DropStale, Matches, ResolveExact, LongerNames, Normalize, Elements;
    var batch := ["call"];
    var x := Index(map[(fp, batch) := IndexRecord(fp, batch, LongerNames(n))], map[]);
    NormalizeIsIdempotent(batch);
    ResolveIsScan(x, map[], fp, batch);
    if n > 0 {
      LongerNamesDiffer(n);
    }
  }

  // ---------------------------------------------------------------------
  // Tool pointers and supersets of a batch
  // ---------------------------------------------------------------------

  // Every id of the batch points to the whole batch.
  predicate Pointed(x: Index, fp: string, batch: seq<string>) {
    forall id :: id in batch ==> (fp, id) in x.pointers && PointsTo(x.pointers[(fp, id)], fp, id, batch)
  }

  predicate AllPointed(x: Index, states: map<string, Snapshot>) {
    forall id :: id in states && states[id].pending != [] ==> Pointed(x, states[id].fingerprint, Batch(states[id]))
  }

  predicate Apart(a: seq<string>, b: seq<string>) {
    a == b || forall id :: id in a ==> id !in b
  }

  predicate BothWait(a: Snapshot, b: Snapshot) {
    a.pending != [] && b.pending != [] && a.fingerprint == b.fingerprint
  }

  // The batches one account waits for are pairwise equal or disjoint.
  predicate BatchesApart(states: map<string, Snapshot>) {
    forall a, b :: a in states && b in states && BothWait(states[a], states[b]) ==> Apart(Batch(states[a]), Batch(states[b]))
  }

  lemma {:induction false} WrittenPointer(pointers: map<ToolKey, Pointer>, fp: string, batch: seq<string>, k: nat,
      key: ToolKey)
    requires k <= |batch|
    ensures var w := WritePointers(pointers, fp, batch, k);
            if key.0 == fp && key.1 in batch[..k] then key in w && w[key] == Pointer(fp, key.1, batch)
            else (key in w <==> key in pointers) && (key in w ==> w[key] == pointers[key])
  {
    if k > 0 {
      WrittenPointer(pointers, fp, batch, k - 1, key);
      assert batch[..k] == batch[..k - 1] + [batch[k - 1]];
    }
  }

  lemma {:induction false} RemovedPointers(pointers: map<ToolKey, Pointer>, fp: string, batch: seq<string>, k: nat,
      key: ToolKey)
    requires k <= |batch| && key in pointers && !(key.0 == fp && PointsTo(pointers[key], fp, key.1, batch))
    ensures var w := RemovePointers(pointers, fp, batch, k); key in w && w[key] == pointers[key]
  {
    if k > 0 {
      RemovedPointers(pointers, fp, batch, k - 1, key);
    }
  }

  lemma MutatePoints(x: Index, fp: string, batch: seq<string>, session: string)
    requires Mutate(x, fp, batch, session, true).ok && IsBatch(batch)
    ensures Pointed(Mutate(x, fp, batch, session, true).index, fp, batch)
  {
    hide Normalize, RemovePointers, WritePointers;
    NormalizeIsIdempotent(batch);
    assert session in Elements(SetSessions(RecordAt(x, fp, batch).sessions, session, true));
    assert batch[..|batch|] == batch;
    forall id | id in batch
      ensures var w := WritePointers(x.pointers, fp, batch, |batch|); (fp, id) in w && w[(fp, id)] == Pointer(fp, id, batch)
    {
      WrittenPointer(x.pointers, fp, batch, |batch|, (fp, id));
    }
  }

  // Index updates leave the pointers of other waiting batches alone.
  lemma MutateKeepsPointed(x: Index, fp: string, batch: seq<string>, session: string, add: bool, f: string,
      b: seq<string>, id: string)
    requires IsBatch(batch) && Lists(x, f, b, id) && ((f, b, id) == (fp, batch, session) ==> add)
    requires Pointed(x, f, b) && (add && f == fp ==> Apart(b, batch))
    ensures Pointed(Mutate(x, fp, batch, session, add).index, f, b)
  {
    hide Mutate, Lists, Apart;
    forall t | t in b
      ensures var y := Mutate(x, fp, batch, session, add).index;
              (f, t) in y.pointers && PointsTo(y.pointers[(f, t)], f, t, b)
    {
      MutateKeepsPointer(x, fp, batch, session, add, f, b, id, t);
    }
  }

  // Pointers are written when a session is added, and removed with the last one.
  lemma MutatedPointers(x: Index, fp: string, batch: seq<string>, session: string, add: bool)
    ensures var p := Mutate(x, fp, batch, session, add).index.pointers;
            || p == x.pointers
            || (add && p == WritePointers(x.pointers, fp, batch, |batch|))
            || (!add && SetSessions(RecordAt(x, fp, batch).sessions, session, false) == [] && p == RemovePointers(x.pointers, fp, batch, |batch|))
  {
    hide Normalize, RemovePointers, WritePointers, SetSessions, Increasing;
    assert add ==> session in Elements(SetSessions(RecordAt(x, fp, batch).sessions, session, add));
  }

  lemma MutateKeepsPointer(x: Index, fp: string, batch: seq<string>, session: string, add: bool, f: string,
      b: seq<string>, id: string, t: string)
    requires IsBatch(batch) && Lists(x, f, b, id) && ((f, b, id) == (fp, batch, session) ==> add)
    requires Pointed(x, f, b) && (add && f == fp ==> Apart(b, batch)) && t in b
    ensures var y := Mutate(x, fp, batch, session, add).index;
            (f, t) in y.pointers && PointsTo(y.pointers[(f, t)], f, t, b)
  {
    hide Normalize, RemovePointers, WritePointers, Mutate;
    NormalizeIsIdempotent(batch);
    MutatedPointers(x, fp, batch, session, add);
    if add {
      assert batch[..|batch|] == batch;
      WrittenPointer(x.pointers, fp, batch, |batch|, (f, t));
    } else if SetSessions(RecordAt(x, fp, batch).sessions, session, false) == [] {
      assert (f, b) == (fp, batch) ==> id in Elements(SetSessions(RecordAt(x, fp, batch).sessions, session, false));
      RemovedPointers(x.pointers, fp, batch, |batch|, (f, t));
    }
  }

  lemma SyncKeepsPointed(x: Index, fp: string, session: string, previous: seq<string>, next: seq<string>, f: string,
      b: seq<string>, id: string)
    requires Lists(x, f, b, id) && Pointed(x, f, b)
    requires (f, b, id) == (fp, Normalize(previous), session) ==> Normalize(next) == b
    requires f == fp && Normalize(next) != [] ==> Apart(b, Normalize(next))
    ensures Pointed(Sync(x, fp, session, previous, next).index, f, b)
  {
    hide Mutate, Lists, Normalize, Pointed;
    var (p, n) := (Normalize(previous), Normalize(next));
    if p != [] && p != n {
      MutateKeeps(x, fp, p, session, false, f, b, id);
      MutateKeepsPointed(x, fp, p, session, false, f, b, id);
    }
    var removed := if p != [] && p != n then Mutate(x, fp, p, session, false) else Synced(x, true);
    if n != [] {
      MutateKeepsPointed(removed.index, fp, n, session, true, f, b, id);
    }
  }

  lemma SyncPoints(x: Index, fp: string, session: string, previous: seq<string>, next: seq<string>)
    requires Sync(x, fp, session, previous, next).ok
    ensures Pointed(Sync(x, fp, session, previous, next).index, fp, Normalize(next))
  {
    hide Mutate, Normalize;
    var (p, n) := (Normalize(previous), Normalize(next));
    if n != [] {
      var removed := if p != [] && p != n then Mutate(x, fp, p, session, false) else Synced(x, true);
      MutatePoints(removed.index, fp, n, session);
    }
  }

  lemma {:induction false} RebuildPoints(x: Index, states: map<string, Snapshot>, order: seq<string>)
    requires Rebuild(x, states, order).ok && BatchesApart(states)
    ensures forall id :: id in order && id in states && states[id].pending != [] ==>
              Pointed(Rebuild(x, states, order).index, states[id].fingerprint, Batch(states[id]))
  {
    hide Sync, Pointed, Normalize, Apart, Lists;
    if order != [] {
      var (n, last) := (|order| - 1, order[|order| - 1]);
      RebuildPoints(x, states, order[..n]);
      RebuildLists(x, states, order[..n]);
      var before := Rebuild(x, states, order[..n]).index;
      forall id | id in order && id in states && states[id].pending != []
        ensures Pointed(Rebuild(x, states, order).index, states[id].fingerprint, Batch(states[id]))
      {
        RebuildStepPoints(x, states, order, id);
      }
    }
  }

  lemma RebuildStepPoints(x: Index, states: map<string, Snapshot>, order: seq<string>, id: string)
    requires order != [] && Rebuild(x, states, order).ok && BatchesApart(states) && id in order && id in states && states[id].pending != []
    requires var before := Rebuild(x, states, order[..|order| - 1]).index;
             id in order[..|order| - 1] ==>
               Listed(before, id, states[id]) && Pointed(before, states[id].fingerprint, Batch(states[id]))
    ensures Pointed(Rebuild(x, states, order).index, states[id].fingerprint, Batch(states[id]))
  {
    hide Sync, Normalize, Apart, Lists;
    var (n, last) := (|order| - 1, order[|order| - 1]);
    var before := Rebuild(x, states, order[..n]).index;
    if Batch(states[id]) != [] && last in states && states[last].pending != [] {
      if id == last {
        SyncPoints(before, states[id].fingerprint, id, [], RawBatch(states[id]));
      } else {
        SyncKeepsPointed(before, states[last].fingerprint, last, [], RawBatch(states[last]), states[id].fingerprint,
            Batch(states[id]), id);
      }
    }
  }

  // A resolved session has the caller's account, still waits, and its whole
  // batch was submitted; nothing is assumed of the index.
  lemma ResolvedCovers(x: Index, states: map<string, Snapshot>, fp: string, submitted: seq<string>)
    requires IsBatch(submitted)
    ensures var r := Resolve(x, states, fp, submitted).1;
            r.Found? ==>
              && r.session in states && states[r.session].fingerprint == fp && states[r.session].pending != []
              && SubsetOf(Batch(states[r.session]), submitted)
  {
    hide Normalize, DropStale, Matches, Pends;
    ExactIsLive(x, states, fp, submitted);
    var y := ResolveExact(x, states, fp, submitted).0;
    var covering := CoveringBatch(y, fp, submitted, |submitted|);
    if covering.Covering? {
      CoveringIsSubset(y, fp, submitted, |submitted|);
      ExactIsLive(y, states, fp, covering.batch);
    }
    LiveIsPending(states, fp);
  }

  lemma LiveIsPending(states: map<string, Snapshot>, fp: string)
    ensures forall b, id :: Live(states, fp, b, id) ==> states[id].fingerprint == fp && states[id].pending != [] && Batch(states[id]) == b
  {}

  lemma ExactIsLive(x: Index, states: map<string, Snapshot>, fp: string, batch: seq<string>)
    ensures var r := ResolveExact(x, states, fp, batch).1; r.Found? ==> Live(states, fp, batch, r.session)
  {
    hide Normalize, DropStale, Matches;
    var matches := Matches(states, fp, batch, RecordAt(x, fp, batch).sessions);
    MatchesAreLive(states, fp, batch, RecordAt(x, fp, batch).sessions);
    assert matches != [] ==> matches[0] in Elements(matches);
  }

  lemma {:induction false} CoveringIsSubset(x: Index, fp: string, submitted: seq<string>, k: nat)
    requires k <= |submitted| && CoveringBatch(x, fp, submitted, k).Covering?
    ensures var b := CoveringBatch(x, fp, submitted, k).batch; b != [] ==> SubsetOf(b, submitted)
  {
    hide Normalize;
    if k > 0 {
      CoveringIsSubset(x, fp, submitted, k - 1);
    }
  }

  // Once the pointer of one of its ids is read, a submitted batch is the
  // candidate, or the answer is already ambiguous.
  lemma {:induction false} CoveringFinds(x: Index, fp: string, submitted: seq<string>, k: nat, batch: seq<string>,
      j: nat)
    requires j < k <= |submitted| && submitted[j] in batch && Pointed(x, fp, batch) && SubsetOf(batch, submitted)
    ensures var c := CoveringBatch(x, fp, submitted, k); c.TwoBatches? || c.batch == batch
  {
    hide Normalize;
    if j < k - 1 {
      CoveringFinds(x, fp, submitted, k - 1, batch, j);
      CoveringIsSubsetOrTwo(x, fp, submitted, k - 1);
    }
  }

  lemma CoveringIsSubsetOrTwo(x: Index, fp: string, submitted: seq<string>, k: nat)
    requires k <= |submitted|
    ensures var c := CoveringBatch(x, fp, submitted, k); c.TwoBatches? || c.batch == [] || SubsetOf(c.batch, submitted)
  {
    if CoveringBatch(x, fp, submitted, k).Covering? {
      CoveringIsSubset(x, fp, submitted, k);
    }
  }

  lemma {:induction false} DropStaleKeepsPointed(x: Index, states: map<string, Snapshot>, fp: string,
      batch: seq<string>, ids: seq<string>)
    requires IsBatch(batch) && AllListed(x, states) && AllPointed(x, states)
    ensures AllPointed(DropStale(x, states, fp, batch, ids).index, states)
  {
    hide Mutate, Lists, Normalize, Pointed;
    if ids != [] {
      var (n, last) := (|ids| - 1, ids[|ids| - 1]);
      DropStaleKeepsPointed(x, states, fp, batch, ids[..n]);
      DropStaleKeeps(x, states, fp, batch, ids[..n]);
      var before := DropStale(x, states, fp, batch, ids[..n]).index;
      if DropStale(x, states, fp, batch, ids[..n]).ok && !Live(states, fp, batch, last) {
        forall id | id in states && states[id].pending != []
          ensures Pointed(Mutate(before, fp, batch, last, false).index, states[id].fingerprint, Batch(states[id]))
        {
          assert Listed(before, id, states[id]);
          if Batch(states[id]) != [] {
            MutateKeepsPointed(before, fp, batch, last, false, states[id].fingerprint, Batch(states[id]), id);
          } else {
            EmptyIsPointed(Mutate(before, fp, batch, last, false).index, states[id].fingerprint);
          }
        }
      }
    }
  }

  lemma EmptyIsPointed(x: Index, fp: string)
    ensures Pointed(x, fp, [])
  {}

  predicate WaitsWithin(states: map<string, Snapshot>, fp: string, submitted: seq<string>, id: string) {
    id in states && states[id].fingerprint == fp && states[id].pending != [] && SubsetOf(Batch(states[id]), submitted)
  }

  // With two waiting batches inside the submitted ids the answer is ambiguous
  // and never one of the sessions.
  lemma TwoBatchesAreAmbiguous(x: Index, states: map<string, Snapshot>, fp: string, submitted: seq<string>,
      a: string, b: string)
    requires AllListed(x, states) && AllPointed(x, states) && BatchesApart(states) && IsBatch(submitted) && fp != ""
    requires WaitsWithin(states, fp, submitted, a) && WaitsWithin(states, fp, submitted, b) && Batch(states[a]) != Batch(states[b])
    ensures var r := Resolve(x, states, fp, submitted).1; r == if Overfull(x, fp, submitted) then IndexFailed else Ambiguous
  {
    hide Normalize, DropStale, Matches, CoveringBatch, Lists, Pointed;
    var (y, exact) := ResolveExact(x, states, fp, submitted);
    assert Batch(states[a])[0] in submitted;
    ResolveIsScan(x, states, fp, submitted);
    NothingWaitsForAll(states, fp, submitted, a, b);
    if exact.NotPending? {
      ExactKeepsPointed(x, states, fp, submitted);
      TwoBatchesAreFound(y, states, fp, submitted, a, b);
    }
  }

  lemma ApartSubsetIsEqual(a: seq<string>, b: seq<string>)
    requires Apart(a, b) && SubsetOf(a, b)
    ensures a == b
  {
    assert a[0] in a;
  }

  lemma NothingWaitsForAll(states: map<string, Snapshot>, fp: string, submitted: seq<string>, a: string, b: string)
    requires BatchesApart(states)
    requires WaitsWithin(states, fp, submitted, a) && WaitsWithin(states, fp, submitted, b) && Batch(states[a]) != Batch(states[b])
    ensures Scan(states, fp, submitted) == {}
  {
    hide Normalize;
    forall id | id in states
      ensures !Pends(states[id], fp, submitted)
    {
      if Pends(states[id], fp, submitted) {
        ApartSubsetIsEqual(Batch(states[a]), submitted);
        ApartSubsetIsEqual(Batch(states[b]), submitted);
      }
    }
  }

  lemma ExactKeepsPointed(x: Index, states: map<string, Snapshot>, fp: string, batch: seq<string>)
    requires AllListed(x, states) && AllPointed(x, states) && IsBatch(batch)
    ensures AllPointed(ResolveExact(x, states, fp, batch).0, states)
  {
    hide Normalize, DropStale, Matches, AllListed, AllPointed;
    DropStaleKeepsPointed(x, states, fp, batch, RecordAt(x, fp, batch).sessions);
  }

  lemma TwoBatchesAreFound(y: Index, states: map<string, Snapshot>, fp: string, submitted: seq<string>, a: string,
      b: string)
    requires AllPointed(y, states)
    requires WaitsWithin(states, fp, submitted, a) && WaitsWithin(states, fp, submitted, b) && Batch(states[a]) != Batch(states[b])
    ensures CoveringBatch(y, fp, submitted, |submitted|).TwoBatches?
  {
    hide Normalize, CoveringBatch, Pointed;
    var (p, q) := (Batch(states[a]), Batch(states[b]));
    assert p[0] in submitted && q[0] in submitted;
    var i :| 0 <= i < |submitted| && submitted[i] == p[0];
    var j :| 0 <= j < |submitted| && submitted[j] == q[0];
    CoveringFinds(y, fp, submitted, |submitted|, p, i);
    CoveringFinds(y, fp, submitted, |submitted|, q, j);
  }

  // The pointers of the submitted ids lead to no other submitted batch.
  predicate PointsNowhereElse(x: Index, fp: string, submitted: seq<string>, batch: seq<string>) {
    forall id :: id in submitted && (fp, id) in x.pointers ==>
      var p := x.pointers[(fp, id)];
      p.fingerprint == fp && SubsetOf(Normalize(p.batchIds), submitted) ==> Normalize(p.batchIds) == batch
  }

  lemma {:induction false} CoveringFindsOnly(x: Index, fp: string, submitted: seq<string>, k: nat, batch: seq<string>)
    requires k <= |submitted| && PointsNowhereElse(x, fp, submitted, batch)
    ensures var c := CoveringBatch(x, fp, submitted, k); c.Covering? && (c.batch == [] || c.batch == batch)
  {
    hide Normalize;
    if k > 0 {
      CoveringFindsOnly(x, fp, submitted, k - 1, batch);
      assert submitted[k - 1] in submitted;
    }
  }

  // Results submitted together with others find the one waiting batch among them
  // that the pointers lead to.
  lemma CoveredBatchResolves(x: Index, states: map<string, Snapshot>, fp: string, submitted: seq<string>, id: string)
    requires AllListed(x, states) && AllPointed(x, states) && BatchesApart(states) && IsBatch(submitted) && fp != ""
    requires WaitsWithin(states, fp, submitted, id) && Batch(states[id]) != submitted
    requires var y := ResolveExact(x, states, fp, submitted).0; PointsNowhereElse(y, fp, submitted, Batch(states[id]))
    ensures var r := Resolve(x, states, fp, submitted).1;
            if Overfull(x, fp, submitted) then r == IndexFailed else Answers(r, Scan(states, fp, Batch(states[id])))
  {
    hide Normalize, DropStale, Matches, CoveringBatch, Lists, Pointed, PointsNowhereElse;
    var (y, exact) := ResolveExact(x, states, fp, submitted);
    var batch := Batch(states[id]);
    assert batch[0] in submitted;
    ResolveIsScan(x, states, fp, submitted);
    NothingElseWaitsForAll(states, fp, submitted, id);
    if exact.NotPending? {
      ExactKeepsPointed(x, states, fp, submitted);
      CoveringFindsOnly(y, fp, submitted, |submitted|, batch);
      var i :| 0 <= i < |submitted| && submitted[i] == batch[0];
      CoveringFinds(y, fp, submitted, |submitted|, batch, i);
      ResolveIsScan(y, states, fp, batch);
      assert id in Scan(states, fp, batch);
    }
  }

  lemma NothingElseWaitsForAll(states: map<string, Snapshot>, fp: string, submitted: seq<string>, id: string)
    requires BatchesApart(states) && WaitsWithin(states, fp, submitted, id) && Batch(states[id]) != submitted
    ensures Scan(states, fp, submitted) == {}
  {
    hide Normalize;
    forall other | other in states
      ensures !Pends(states[other], fp, submitted)
    {
      if Pends(states[other], fp, submitted) {
        ApartSubsetIsEqual(Batch(states[id]), submitted);
      }
    }
  }
}
