// state.go: what every call of the session store does, on values.  Each call is
// one step; the clock, the directory listings and recent UUIDs are parameters.
module StateStores {
  import opened Events
  import opened Strings
  import opened ToolIds
  import opened StateSnapshots
  import opened PendingIndexes
  import opened CompletedSnapshots
  import U = Usages
  import J = Json
  import E = EventSnapshots

  const STATE_GC_INTERVAL: nat := 60 * 60 * 1_000_000_000
  const MAX_CONNECT_PAYLOAD: nat := 0x100_0000
  const TWO_TO_THE_64: nat := 0x1_0000_0000_0000_0000

  datatype Error =
    | RetiredOwner | CredentialMismatch | LeaseHeld | PendingTools | NotFound | NoMatch | ResultConflict | IndexError | Invalid

  // OwnerLease.  The handle stands for the open lock file; 0 is no handle.
  datatype Owner = Owner(
    segment: string, session: string, generation: nat, token: string, fingerprint: string, conversation: string,
    billing: string, handle: nat)

  // `leases` maps the handles that hold a lock to the locked session.
  datatype Store = Store(
    ttl: nat,
    now: Time,
    states: map<string, Snapshot>,
    index: Index,
    completed: Completed,
    leases: map<nat, string>,
    nextHandle: nat)

  predicate Held(st: Store, session: string) {
    session in st.leases.Values
  }

  // ---------------------------------------------------------------------
  // Pruning
  // ---------------------------------------------------------------------

  // Removes a session record and takes it out of the index.
  function Remove(st: Store, id: string): (Store, bool)
    requires id in st.states
  {
    var s := st.states[id];
    var synced := Sync(st.index, s.fingerprint, id, s.batchIds, []);
    (st.(states := st.states - {id}, index := synced.index), synced.ok)
  }

  // The session half of pruneExpired, over a directory listing.
  function PruneStates(st: Store, order: seq<string>): (Store, bool) {
    if order == [] then (st, true)
    else
      var ((before, ok), id) := (PruneStates(st, order[..|order| - 1]), order[|order| - 1]);
      if !ok || id !in before.states || !StateExpired(before.states[id], st.now, st.ttl) || Held(before, id) then (before, ok)
      else Remove(before, id)
  }

  // pruneExpired, with the listings of the session and the completed directory.
  // It is due when forced, or when this process has not pruned for an hour.
  function PruneExpired(st: Store, due: bool, order: seq<string>, completedOrder: seq<string>): (Store, bool) {
    if !due then (st, true)
    else
      var (pruned, ok) := PruneStates(st, order);
      if !ok then (pruned, false)
      else (pruned.(completed := Prune(pruned.completed, st.now, st.ttl, completedOrder)), true)
  }

  // ---------------------------------------------------------------------
  // Claim
  // ---------------------------------------------------------------------

  // `catalog` is the tool catalog as protocol.go normalizes it, or None where it
  // refuses it.
  datatype ClaimOptions = ClaimOptions(
    sandProfile: bool,
    historyKey: string,
    allowPending: bool,
    requireExisting: bool,
    allowCredentialChange: bool,
    catalogDigest: string,
    catalog: Option<seq<string>>,
    requireCatalog: bool,
    newBillingRunId: string,
    reuseBillingRun: bool)

  datatype ClaimResult =
    | Replayed(record: Tombstone)
    | Claimed(owner: Owner, snapshot: Snapshot, coldRebuild: bool)
    | Rejected(error: Error)

  predicate IsMetered(billing: string) {
    |billing| >= 6 && billing[..6] == "turn2:"
  }

  function NewSnapshot(session: string, conversation: string): Snapshot {
    Snapshot("", session, conversation, "", "", [], "", [], 0, "", "", map[], [], [], "", false, ZERO_TIME, ZERO_TIME)
  }

  function ClearedRun(s: Snapshot): Snapshot {
    s.(checkpoint := "", blobs := map[], pending := [], batchIds := [])
  }

  function Profiled(s: Snapshot, created: bool, opt: ClaimOptions): Snapshot {
    if Trim(s.runtimeProfile) != "" then s
    else s.(runtimeProfile := if created && opt.sandProfile then "sand" else "agent_v1")
  }

  function Billed(s: Snapshot, opt: ClaimOptions, uuid: string): Snapshot {
    if opt.reuseBillingRun || (opt.allowPending && IsMetered(s.billingRunId)) then
      if Trim(s.billingRunId) == "" then s.(billingRunId := uuid) else s
    else
      s.(usageCarry := [], billingRunId := if Trim(opt.newBillingRunId) == "" then uuid else Trim(opt.newBillingRunId))
  }

  // The record a claim starts from, or why it is refused.
  datatype Prepared = Ready(snapshot: Snapshot, coldRebuild: bool) | Stopped(error: Error)

  function Prepare(current: Snapshot, created: bool, conversation: string, fp: string, opt: ClaimOptions,
      billingUuid: string): Prepared {
    var digest := Trim(opt.catalogDigest);
    var cold := current.fingerprint != "" && current.fingerprint != fp;
    if !opt.allowPending && current.pending != [] then Stopped(PendingTools)
    else if opt.catalog.None? then Stopped(Invalid)
    else if opt.requireCatalog && (current.toolCatalogDigest == ""
                                   || (current.toolCatalog == [] && digest != "" && current.toolCatalogDigest != digest)) then Stopped(NoMatch)
    else if cold && !opt.allowCredentialChange then Stopped(CredentialMismatch)
    else
      var a := Profiled(current, created, opt);
      var b := if opt.historyKey == "" then a else ClearedRun(a).(conversationId := conversation, ephemeral := false,
          completedAt := ZERO_TIME);
      var c := if !cold then b else ClearedRun(b).(toolCatalog := [], billingRunId := "", conversationId := conversation);
      var d := Billed(c, opt, billingUuid);
      var e := if opt.requireCatalog || d.pending != [] then d else d.(toolCatalogDigest := digest, toolCatalog := opt.catalog.value);
      Ready(if e.conversationId == "" then e.(conversationId := conversation) else e, cold)
  }

  function Owned(s: Snapshot, session: string, fp: string, token: string, now: Time): Snapshot {
    s.(sessionId := session, fingerprint := fp, generation := (s.generation + 1) % TWO_TO_THE_64, token := token,
        updatedAt := now)
  }

  // The index updates after a claim wrote its record.
  function ClaimSync(x: Index, session: string, before: Snapshot, after: Snapshot): Synced {
    var removed :=
      if before.batchIds != [] && (before.fingerprint != after.fingerprint || Normalize(before.batchIds) != Normalize(after.batchIds))
      then Sync(x, before.fingerprint, session, before.batchIds, []) else Synced(x, true);
    if !removed.ok || after.batchIds == [] then removed else Sync(removed.index, after.fingerprint, session, [], after.batchIds)
  }

  function ClaimWrite(st: Store, session: string, before: Snapshot, ready: Prepared, fp: string,
      token: string): (Store, ClaimResult)
    requires ready.Ready?
  {
    var s := Owned(ready.snapshot, session, fp, token, st.now);
    var synced := ClaimSync(st.index, session, before, s);
    var written := st.(states := st.states[session := s], index := synced.index);
    if !synced.ok then (written, Rejected(IndexError))
    else
      (written.(leases := st.leases[st.nextHandle := session], nextHandle := st.nextHandle + 1),
       Claimed(Owner("", session, s.generation, token, fp, s.conversationId, s.billingRunId, st.nextHandle), s,
           ready.coldRebuild))
  }

  // Under the session's lease.
  function ClaimLeased(st: Store, session: string, conversation: string, fp: string, opt: ClaimOptions,
      token: string, billingUuid: string):
    (Store, ClaimResult) {
    var replay := if opt.historyKey == "" then Miss else LookupHistory(st.completed, st.now, st.ttl, fp, opt.historyKey);
    if replay.Hit? then (st, Replayed(replay.record))
    else if replay != Miss then (st, Rejected(Invalid))
    else
      var expired := session in st.states && StateExpired(st.states[session], st.now, st.ttl);
      var (kept, ok) := if expired then Remove(st, session) else (st, true);
      var created := session !in kept.states;
      if !ok then (kept, Rejected(IndexError))
      else if created && opt.requireExisting then (kept, Rejected(NotFound))
      else
        var current := if created then NewSnapshot(session, conversation) else kept.states[session];
        var ready := Prepare(current, created, conversation, fp, opt, billingUuid);
        if ready.Stopped? then (kept, Rejected(ready.error)) else ClaimWrite(kept, session, current, ready, fp, token)
  }

  function Claim(st: Store, sessionId: string, conversationId: string, fingerprint: string, opt: ClaimOptions,
      token: string,
                 billingUuid: string, order: seq<string>, completedOrder: seq<string>, due: bool): (Store, ClaimResult) {
    var (pruned, ok) := PruneExpired(st, due, order, completedOrder);
    var (session, conversation, fp) := (Trim(sessionId), Trim(conversationId), Trim(fingerprint));
    if !ok then (pruned, Rejected(IndexError))
    else if session == "" || conversation == "" || fp == "" then (pruned, Rejected(Invalid))
    else if Held(pruned, session) then (pruned, Rejected(LeaseHeld))
    else ClaimLeased(pruned, session, conversation, fp, opt, token, billingUuid)
  }

  // ---------------------------------------------------------------------
  // Calls through an owner
  // ---------------------------------------------------------------------

  predicate OwnerMatches(s: Snapshot, o: Owner) {
    && s.sessionId == o.session && s.generation == o.generation && s.token == o.token
    && s.fingerprint == o.fingerprint && s.conversationId == o.conversation
  }

  // withOwner: the handle must not have been released.
  predicate HasLease(st: Store, o: Owner) {
    o.handle in st.leases
  }

  predicate Owns(st: Store, o: Owner) {
    && Trim(o.session) != "" && Trim(o.token) != "" && HasLease(st, o)
    && o.session in st.states && OwnerMatches(st.states[o.session], o)
  }

  function Put(st: Store, o: Owner, s: Snapshot): Store {
    st.(states := st.states[o.session := s.(updatedAt := st.now)])
  }

  datatype Done = Ok | Failed(error: Error)

  // update with a change that cannot fail.
  function Change(st: Store, o: Owner, f: Snapshot -> Snapshot): (Store, Done) {
    if !Owns(st, o) then (st, Failed(RetiredOwner)) else (Put(st, o, f(st.states[o.session])), Ok)
  }

  // `fits` is the verdict on the blob sizes.
  function SaveCheckpoint(st: Store, o: Owner, checkpoint: string, blobs: map<string, string>, fits: bool):
    (Store, Done) {
    if !Owns(st, o) then (st, Failed(RetiredOwner))
    else if |checkpoint| > MAX_CONNECT_PAYLOAD || !fits then (st, Failed(Invalid))
    else (Put(st, o, st.states[o.session].(checkpoint := checkpoint, blobs := blobs)), Ok)
  }

  function SaveFollowUp(st: Store, o: Owner, followUp: string): (Store, Done) {
    Change(st, o, (s: Snapshot) => s.(followUp := Trim(followUp)))
  }

  function SetBillingRunId(st: Store, o: Owner, billing: string): (Store, Done) {
    if Trim(billing) == "" then (st, Failed(Invalid)) else Change(st, o, (s: Snapshot) => s.(billingRunId := Trim(billing)))
  }

  function SaveUsageCarry(st: Store, o: Owner, events: seq<Event>): (Store, Done) {
    Change(st, o, (s: Snapshot) => s.(usageCarry := U.UsageEvidence(events)))
  }

  function ToolBytes(pending: seq<PendingTool>): nat {
    if pending == [] then 0
    else
      var t := pending[|pending| - 1];
      ToolBytes(pending[..|pending| - 1]) + J.Size(t.execId) + J.Size(Trim(t.toolCallId)) + J.Size(Trim(t.upstreamToolCallId))
      + J.Size(t.name) + J.Size(t.arguments)
  }

  predicate Routed(id: string) {
    var prefix := "toolu_bf_agentv1_";
    |id| >= |prefix| && id[..|prefix|] == prefix
  }

  // validatePendingTools
  predicate ValidPending(pending: seq<PendingTool>) {
    && |pending| <= MAX_PENDING_TOOLS && ToolBytes(pending) <= MAX_PENDING_TOOL_BYTES
    && (forall t :: t in pending ==> Trim(t.toolCallId) != "" && (Routed(Trim(t.toolCallId)) ==> Trim(t.upstreamToolCallId) != ""))
    && (forall i, j :: 0 <= i < j < |pending| ==>
          && Trim(pending[i].toolCallId) != Trim(pending[j].toolCallId)
          && (Trim(pending[i].upstreamToolCallId) != "" ==> Trim(pending[i].upstreamToolCallId) != Trim(pending[j].upstreamToolCallId)))
  }

  // A longer list of pending tools starts a new batch; a shorter one, or one of
  // the same size, still belongs to the recorded batch.
  function NextBatch(s: Snapshot, pending: seq<PendingTool>): seq<string> {
    if pending == [] then []
    else if s.batchIds == [] || |pending| > |s.pending| then PendingToolIds(pending)
    else s.batchIds
  }

  function PendingWrite(st: Store, o: Owner, pending: seq<PendingTool>): Store
    requires Owns(st, o)
  {
    var s := st.states[o.session];
    Put(st, o, s.(batchIds := NextBatch(s, pending), pending := pending))
  }

  function SavePending(st: Store, o: Owner, pending: seq<PendingTool>): (Store, Done) {
    if !Owns(st, o) then (st, Failed(RetiredOwner))
    else if !ValidPending(pending) then (st, Failed(Invalid))
    else
      var s := st.states[o.session];
      var synced := Sync(st.index, o.fingerprint, o.session, s.batchIds, NextBatch(s, pending));
      (PendingWrite(st, o, pending).(index := synced.index), if synced.ok then Ok else Failed(IndexError))
  }

  function Delete(st: Store, o: Owner): (Store, Done) {
    if !HasLease(st, o) then (st, Failed(RetiredOwner))
    else if o.session !in st.states then (st, Ok)
    else if !OwnerMatches(st.states[o.session], o) then (st, Failed(RetiredOwner))
    else
      var (removed, ok) := Remove(st, o.session);
      (removed, if ok then Ok else Failed(IndexError))
  }

  function DeleteSession(st: Store, sessionId: string, fingerprint: string): (Store, Done) {
    var (session, fp) := (Trim(sessionId), Trim(fingerprint));
    if session == "" || fp == "" then (st, Failed(CredentialMismatch))
    else if Held(st, session) then (st, Failed(LeaseHeld))
    else if session !in st.states then (st, Ok)
    else if st.states[session].fingerprint != fp then (st, Failed(CredentialMismatch))
    else
      var (removed, ok) := Remove(st, session);
      (removed, if ok then Ok else Failed(IndexError))
  }

  function Release(st: Store, o: Owner): Store {
    st.(leases := st.leases - {o.handle})
  }

  // ---------------------------------------------------------------------
  // Completed requests
  // ---------------------------------------------------------------------

  function CompletedRecord(s: Snapshot, o: Owner, canonical: seq<ToolResult>, events: seq<Event>, ephemeral: bool,
      followUp: string, now: Time): Tombstone {
    NewTombstone(o.segment, o.fingerprint, if o.billing == "" then s.billingRunId else o.billing, o.session,
        s.conversationId, canonical, events, s.pending != [], ephemeral, followUp, now)
  }

  // SaveCompleted; events that do not fit the snapshot limit are refused.
  function SaveCompleted(st: Store, o: Owner, results: seq<ToolResult>, events: seq<Event>, ephemeral: bool,
      followUp: string): (Store, Done) {
    var (canonical, persisted) := (CanonicalResults(results), E.Fill(events));
    if !canonical.Results? then (st, Failed(if canonical.Unusable? then NoMatch else Invalid))
    else if persisted.None? then (st, Failed(Invalid))
    else if !Owns(st, o) then (st, Failed(RetiredOwner))
    else
      var s := st.states[o.session];
      var t := CompletedRecord(s, o, canonical.results, persisted.value.events, ephemeral, followUp, st.now);
      var (completed, saved) := Write(st.completed, t);
      if saved != Written then (st, Failed(if saved == Conflict then ResultConflict else Invalid))
      else
        var a := if followUp != "" then s.(followUp := followUp) else s;
        var b := if ephemeral && s.pending == [] then a.(ephemeral := true, completedAt := st.now) else a;
        (Put(st.(completed := completed), o, b), Ok)
  }

  predicate Visible(e: Event) {
    || (e.kind == Text && Trim(e.text) != "")
    || (e.kind == ToolCallEvent && e.toolCall.Some?)
    || (e.kind == HostedSearchCompleted && e.search.Some?)
  }

  function HistoryRecord(o: Owner, key: string, events: seq<Event>, handoff: bool, now: Time): Tombstone {
    Tombstone(key, o.segment, o.fingerprint, [], "", [], events, o.billing, o.session, o.conversation, handoff, "", true, now)
  }

  function SaveHistory(st: Store, o: Owner, key: string, events: seq<Event>): (Store, Done) {
    var persisted := E.Fill(events);
    if !(exists e :: e in events && Visible(e)) || persisted.None? then (st, Failed(Invalid))
    else if !Owns(st, o) then (st, Failed(RetiredOwner))
    else
      var handoff := exists e :: e in events && e.kind == ToolCallEvent;
      var (completed, wrote, saved) := WriteHistory(st.completed, st.now, st.ttl,
          HistoryRecord(o, key, persisted.value.events, handoff, st.now));
      var s := st.states[o.session];
      if saved != Written then (st, Failed(Invalid))
      else if !wrote then (Put(st, o, s), Ok)
      else (Put(st.(completed := completed), o, ClearedRun(s).(ephemeral := true, completedAt := st.now)), Ok)
  }

  // LookupCompleted; it prunes completed snapshots only.
  function FindCompleted(st: Store, fingerprint: string, results: seq<ToolResult>, followUp: string,
      completedOrder: seq<string>, due: bool): (Store, Lookup) {
    var canonical := CanonicalResults(results);
    if !canonical.Results? || Trim(fingerprint) == "" then (st, LookupCompleted(st.completed, st.now, st.ttl, fingerprint, results, followUp).1)
    else
      var pruned := if due then Prune(st.completed, st.now, st.ttl, completedOrder) else st.completed;
      var (completed, r) := LookupCompleted(pruned, st.now, st.ttl, fingerprint, results, followUp);
      (st.(completed := completed), r)
  }

  // ResolvePending
  function ResolvePending(st: Store, fingerprint: string, ids: seq<string>, order: seq<string>,
      completedOrder: seq<string>, due: bool): (Store, Resolution) {
    var (fp, submitted) := (Trim(fingerprint), Normalize(ids));
    if fp == "" || submitted == [] then (st, NotPending)
    else
      var (pruned, ok) := PruneExpired(st, due, order, completedOrder);
      if !ok then (pruned, IndexFailed)
      else
        var (index, r) := Resolve(pruned.index, pruned.states, fp, submitted);
        (pruned.(index := index), r)
  }

  // newFileStateStore on files that other processes may be using.
  function Open(st: Store, order: seq<string>, completedOrder: seq<string>): (Store, bool) {
    var (pruned, ok) := PruneExpired(st, true, order, completedOrder);
    if !ok then (pruned, false)
    else
      var rebuilt := Rebuild(pruned.index, pruned.states, order);
      (pruned.(index := rebuilt.index), rebuilt.ok)
  }
}
