// state.go: who may claim a session, and what the new owner finds in it.
module StoreClaims {
  import opened Events
  import opened Strings
  import opened ToolIds
  import opened StateSnapshots
  import opened PendingIndexes
  import opened CompletedSnapshots
  import opened StateStores
  import opened StoreRuns
  import U = Usages

  // What Claim answers, by the call.
  function ClaimOf(st: Store, call: Call): (Store, ClaimResult)
    requires call.ClaimCall?
  {
    Claim(st, call.session, call.conversation, call.fingerprint, call.opt, call.token, call.billingUuid, call.order,
        call.completedOrder, call.due)
  }

  function PrunedFor(st: Store, call: Call): (Store, bool)
    requires call.ClaimCall?
  {
    PruneExpired(st, call.due, call.order, call.completedOrder)
  }

  // ---------------------------------------------------------------------
  // Who may claim
  // ---------------------------------------------------------------------

  // The record of a session while it has not expired.
  function Record(st: Store, session: string): Option<Snapshot> {
    if session in st.states && !StateExpired(st.states[session], st.now, st.ttl) then Some(st.states[session]) else None
  }

  predicate OtherAccount(rec: Option<Snapshot>, fp: string) {
    rec.Some? && rec.value.fingerprint != "" && rec.value.fingerprint != fp
  }

  // The recorded tool catalog is authoritative; a digest alone has to match.
  predicate CatalogMatches(rec: Option<Snapshot>, digest: string) {
    && rec.Some? && rec.value.toolCatalogDigest != ""
    && (rec.value.toolCatalog != [] || digest == "" || rec.value.toolCatalogDigest == digest)
  }

  predicate Admits(rec: Option<Snapshot>, fp: string, opt: ClaimOptions) {
    && (opt.requireExisting ==> rec.Some?)
    && (rec.Some? && rec.value.pending != [] ==> opt.allowPending)
    && opt.catalog.Some?
    && (opt.requireCatalog ==> CatalogMatches(rec, Trim(opt.catalogDigest)))
    && (OtherAccount(rec, fp) ==> opt.allowCredentialChange)
  }

  // The claim names a session, a conversation and an account; nobody holds the
  // session; no snapshot answers in its place; and the record admits it.
  predicate MayClaim(st: Store, call: Call)
    requires call.ClaimCall?
  {
    var fp := Trim(call.fingerprint);
    && Trim(call.session) != "" && Trim(call.conversation) != "" && fp != ""
    && !Held(st, Trim(call.session))
    && (call.opt.historyKey != "" ==>
          LookupHistory(PrunedFor(st, call).0.completed, st.now, st.ttl, fp, call.opt.historyKey) == Miss)
    && Admits(Record(st, Trim(call.session)), fp, call.opt)
  }

  lemma {:induction false} PruneKeepsUnexpired(st: Store, order: seq<string>, id: string)
    requires id in st.states && !StateExpired(st.states[id], st.now, st.ttl)
    ensures var p := PruneStates(st, order).0; id in p.states && p.states[id] == st.states[id]
  {
    hide StateExpired, Sync;
    if order != [] {
      PruneKeepsUnexpired(st, order[..|order| - 1], id);
      PruneKeepsRecords(st, order[..|order| - 1]);
    }
  }

  lemma PrunedRecord(st: Store, due: bool, order: seq<string>, completedOrder: seq<string>, id: string)
    ensures var p := PruneExpired(st, due, order, completedOrder).0;
            && Record(p, id) == Record(st, id) && p.now == st.now && p.ttl == st.ttl
            && p.leases == st.leases && p.nextHandle == st.nextHandle
            && (forall k :: k in p.states ==> k in st.states && p.states[k] == st.states[k])
  {
    hide PruneStates, Prune, StateExpired;
    PruneKeepsRecords(st, order);
    if Record(st, id).Some? {
      PruneKeepsUnexpired(st, order, id);
    }
  }

  // ---------------------------------------------------------------------
  // What the owner finds
  // ---------------------------------------------------------------------

  // The run goes on: nobody asked for another one.
  predicate Continues(rec: Option<Snapshot>, fp: string, opt: ClaimOptions) {
    rec.Some? && opt.historyKey == "" && !OtherAccount(rec, fp)
  }

  predicate SameRun(a: Snapshot, b: Snapshot) {
    && b.checkpoint == a.checkpoint && b.blobs == a.blobs && b.pending == a.pending && b.batchIds == a.batchIds
    && b.followUp == a.followUp && b.ephemeral == a.ephemeral && b.completedAt == a.completedAt
  }

  predicate NoRun(s: Snapshot) {
    s.checkpoint == "" && s.blobs == map[] && s.pending == [] && s.batchIds == []
  }

  // The tool catalog: a required one, or one that pending tools belong to, stays;
  // otherwise the claim's own replaces it.  Another account's never stays.
  predicate CatalogKept(rec: Option<Snapshot>, s: Snapshot, fp: string, opt: ClaimOptions)
    requires opt.catalog.Some?
  {
    var kept := opt.requireCatalog || s.pending != [];
    && s.toolCatalog == (if !kept then opt.catalog.value else if rec.None? || OtherAccount(rec, fp) then [] else rec.value.toolCatalog)
    && s.toolCatalogDigest == (if !kept then Trim(opt.catalogDigest) else if rec.None? then "" else rec.value.toolCatalogDigest)
  }

  // The billing run is reused when asked for, or while tools of a metered turn are
  // pending, and then keeps its usage carry; another account's is never reused.
  predicate BillingKept(rec: Option<Snapshot>, s: Snapshot, fp: string, opt: ClaimOptions, uuid: string) {
    var billing := if rec.None? || OtherAccount(rec, fp) then "" else rec.value.billingRunId;
    var carry := if rec.None? then [] else rec.value.usageCarry;
    if opt.reuseBillingRun || (opt.allowPending && IsMetered(billing)) then
      s.billingRunId == (if Trim(billing) == "" then uuid else billing) && s.usageCarry == carry
    else
      s.billingRunId == (if Trim(opt.newBillingRunId) == "" then uuid else Trim(opt.newBillingRunId)) && s.usageCarry == []
  }

  predicate Inherits(rec: Option<Snapshot>, s: Snapshot, conversation: string, fp: string, opt: ClaimOptions, uuid: string)
    requires opt.catalog.Some?
  {
    && (if Continues(rec, fp, opt) then
          SameRun(rec.value, s) && s.conversationId == if rec.value.conversationId == "" then conversation else rec.value.conversationId
        else NoRun(s) && s.conversationId == conversation)
    && (opt.historyKey != "" ==> !s.ephemeral && s.completedAt == ZERO_TIME)
    && CatalogKept(rec, s, fp, opt) && BillingKept(rec, s, fp, opt, uuid)
    && s.runtimeProfile ==
         (if rec.Some? && Trim(rec.value.runtimeProfile) != "" then rec.value.runtimeProfile
          else if rec.None? && opt.sandProfile then "sand" else "agent_v1")
  }

  lemma OnlyProfile(s: Snapshot, created: bool, opt: ClaimOptions)
    ensures Profiled(s, created, opt) == s.(runtimeProfile := Profiled(s, created, opt).runtimeProfile)
  {
    hide Trim;
  }

  lemma OnlyBilling(s: Snapshot, opt: ClaimOptions, uuid: string)
    ensures var b := Billed(s, opt, uuid); b == s.(billingRunId := b.billingRunId, usageCarry := b.usageCarry)
  {
    hide Trim, IsMetered;
  }

  function Before(rec: Option<Snapshot>, session: string, conversation: string): Snapshot {
    if rec.None? then NewSnapshot(session, conversation) else rec.value
  }

  lemma PrepareAdmits(rec: Option<Snapshot>, session: string, conversation: string, fp: string, opt: ClaimOptions, uuid: string)
    ensures var ready := Prepare(Before(rec, session, conversation), rec.None?, conversation, fp, opt, uuid);
            && (ready.Ready? <==> Admits(rec, fp, opt.(requireExisting := false)))
            && (ready.Ready? ==> (ready.coldRebuild <==> OtherAccount(rec, fp)))
            && (ready.Stopped? ==> ready.error != IndexError)
  {
    hide Trim, Profiled, Billed;
  }

  // The record between the clearing of a run and its billing.
  function Cleared(rec: Option<Snapshot>, session: string, conversation: string, fp: string, opt: ClaimOptions): Snapshot {
    var a := Profiled(Before(rec, session, conversation), rec.None?, opt);
    var b := if opt.historyKey == "" then a else ClearedRun(a).(conversationId := conversation, ephemeral := false,
        completedAt := ZERO_TIME);
    if !OtherAccount(rec, fp) then b
    else ClearedRun(b).(toolCatalog := [], billingRunId := "", conversationId := conversation)
  }

  function Catalogued(d: Snapshot, conversation: string, opt: ClaimOptions): Snapshot
    requires opt.catalog.Some?
  {
    var e := if opt.requireCatalog || d.pending != [] then d else d.(toolCatalogDigest := Trim(opt.catalogDigest),
        toolCatalog := opt.catalog.value);
    if e.conversationId == "" then e.(conversationId := conversation) else e
  }

  lemma PrepareInParts(rec: Option<Snapshot>, session: string, conversation: string, fp: string, opt: ClaimOptions, uuid: string)
    requires Admits(rec, fp, opt.(requireExisting := false))
    ensures var ready := Prepare(Before(rec, session, conversation), rec.None?, conversation, fp, opt, uuid);
            ready.Ready? && ready.snapshot == Catalogued(Billed(Cleared(rec, session, conversation, fp, opt), opt, uuid), conversation, opt)
  {
    hide Trim, Profiled, Billed;
  }

  lemma PrepareFinds(rec: Option<Snapshot>, session: string, conversation: string, fp: string, opt: ClaimOptions, uuid: string)
    requires conversation != "" && Admits(rec, fp, opt.(requireExisting := false))
    ensures var ready := Prepare(Before(rec, session, conversation), rec.None?, conversation, fp, opt, uuid);
            && ready.Ready? && Inherits(rec, ready.snapshot, conversation, fp, opt, uuid)
            && ready.snapshot.generation == Before(rec, session, conversation).generation
  {
    hide Trim, Profiled, Billed, Prepare, BillingKept, IsMetered;
    PrepareInParts(rec, session, conversation, fp, opt, uuid);
    OnlyProfile(Before(rec, session, conversation), rec.None?, opt);
    OnlyBilling(Cleared(rec, session, conversation, fp, opt), opt, uuid);
    BillingIsKept(rec, session, conversation, fp, opt, uuid);
    ProfileIsKept(rec, session, conversation, opt);
  }

  lemma ProfileIsKept(rec: Option<Snapshot>, session: string, conversation: string, opt: ClaimOptions)
    ensures Profiled(Before(rec, session, conversation), rec.None?, opt).runtimeProfile ==
              (if rec.Some? && Trim(rec.value.runtimeProfile) != "" then rec.value.runtimeProfile
               else if rec.None? && opt.sandProfile then "sand" else "agent_v1")
  {
    assert Trim("") == "" by { TrimStrips(""); }
    hide Trim;
  }

  lemma BillingIsKept(rec: Option<Snapshot>, session: string, conversation: string, fp: string, opt: ClaimOptions, uuid: string)
    requires opt.catalog.Some?
    ensures var d := Billed(Cleared(rec, session, conversation, fp, opt), opt, uuid);
            BillingKept(rec, Catalogued(d, conversation, opt), fp, opt, uuid)
  {
    hide Trim, IsMetered, Profiled;
    OnlyProfile(Before(rec, session, conversation), rec.None?, opt);
  }

  // ---------------------------------------------------------------------
  // Claim
  // ---------------------------------------------------------------------

  // The store a claim decides on: pruned, and without the session's record if that
  // has expired.
  function Kept(st: Store, call: Call): (Store, bool)
    requires call.ClaimCall?
  {
    var (pruned, session) := (PrunedFor(st, call).0, Trim(call.session));
    if session in pruned.states && StateExpired(pruned.states[session], pruned.now, pruned.ttl) then Remove(pruned, session)
    else (pruned, true)
  }

  // The index can take the session from its old batch to its new one.
  predicate IndexFollows(st: Store, call: Call)
    requires call.ClaimCall?
  {
    var session := Trim(call.session);
    var next := ClaimOf(st, call).0;
    && PrunedFor(st, call).1 && Kept(st, call).1
    && session in next.states
    && ClaimSync(Kept(st, call).0.index, session, Before(Record(st, session), session, Trim(call.conversation)), next.states[session]).ok
  }

  lemma ClaimRuns(st: Store, call: Call)
    requires call.ClaimCall? && MayClaim(st, call) && PrunedFor(st, call).1 && Kept(st, call).1
    ensures var (session, conversation, fp) := (Trim(call.session), Trim(call.conversation), Trim(call.fingerprint));
            var before := Before(Record(st, session), session, conversation);
            var ready := Prepare(before, Record(st, session).None?, conversation, fp, call.opt, call.billingUuid);
            && ready.Ready?
            && ClaimOf(st, call) == ClaimWrite(Kept(st, call).0, session, before, ready, fp, call.token)
            && Kept(st, call).0.now == st.now && Kept(st, call).0.leases == st.leases && Kept(st, call).0.nextHandle == st.nextHandle
  {
    hide PruneExpired, Prepare, ClaimWrite, StateExpired, LookupHistory, Trim, Remove;
    var (session, conversation, fp) := (Trim(call.session), Trim(call.conversation), Trim(call.fingerprint));
    PrunedRecord(st, call.due, call.order, call.completedOrder, session);
    PrepareAdmits(Record(st, session), session, conversation, fp, call.opt, call.billingUuid);
    if session in PrunedFor(st, call).0.states && StateExpired(PrunedFor(st, call).0.states[session], st.now, st.ttl) {
      RemovedRest(PrunedFor(st, call).0, session);
    }
  }

  lemma RemovedRest(st: Store, id: string)
    requires id in st.states
    ensures var r := Remove(st, id).0; r == st.(states := st.states - {id}, index := r.index)
  {
    hide Sync;
  }

  // A claim is granted exactly when the caller may have it and the index follows.
  lemma ClaimedIff(st: Store, call: Call)
    requires call.ClaimCall?
    ensures ClaimOf(st, call).1.Claimed? <==> MayClaim(st, call) && IndexFollows(st, call)
  {
    hide PruneExpired, Prepare, ClaimSync, StateExpired, LookupHistory, Trim, Remove, Admits;
    var (session, conversation, fp) := (Trim(call.session), Trim(call.conversation), Trim(call.fingerprint));
    PrunedRecord(st, call.due, call.order, call.completedOrder, session);
    PrepareAdmits(Record(st, session), session, conversation, fp, call.opt, call.billingUuid);
    if MayClaim(st, call) && PrunedFor(st, call).1 && Kept(st, call).1 {
      ClaimRuns(st, call);
    } else {
      RefusedKeeps(st, call);
    }
  }

  lemma RefusedAnswers(st: Store, call: Call)
    requires call.ClaimCall? && !(MayClaim(st, call) && PrunedFor(st, call).1 && Kept(st, call).1)
    ensures var (next, r) := ClaimOf(st, call);
            && !r.Claimed? && next.leases == st.leases && next.nextHandle == st.nextHandle
            && (next.states == st.states || next.states == PrunedFor(st, call).0.states || next.states == Kept(st, call).0.states)
  {
    hide PruneExpired, Prepare, ClaimWrite, StateExpired, LookupHistory, Trim, Remove;
    var (session, conversation, fp) := (Trim(call.session), Trim(call.conversation), Trim(call.fingerprint));
    PrunedRecord(st, call.due, call.order, call.completedOrder, session);
    PrepareAdmits(Record(st, session), session, conversation, fp, call.opt, call.billingUuid);
    var pruned := PrunedFor(st, call).0;
    if session in pruned.states && StateExpired(pruned.states[session], st.now, st.ttl) {
      RemovedRest(pruned, session);
    }
  }

  lemma KeptRecord(st: Store, call: Call, id: string)
    requires call.ClaimCall? && Record(st, id).Some?
    ensures id in PrunedFor(st, call).0.states && PrunedFor(st, call).0.states[id] == st.states[id]
    ensures id in Kept(st, call).0.states && Kept(st, call).0.states[id] == st.states[id]
  {
    hide PruneExpired, StateExpired, Remove, Trim;
    var (pruned, session) := (PrunedFor(st, call).0, Trim(call.session));
    PrunedRecord(st, call.due, call.order, call.completedOrder, id);
    PrunedRecord(st, call.due, call.order, call.completedOrder, session);
    if session in pruned.states && StateExpired(pruned.states[session], st.now, st.ttl) {
      RemovedRest(pruned, session);
    }
  }

  // A claim that the caller may not have changes no record that has not expired,
  // and takes no lease.
  lemma RefusedKeeps(st: Store, call: Call)
    requires call.ClaimCall? && !(MayClaim(st, call) && PrunedFor(st, call).1 && Kept(st, call).1)
    ensures var (next, r) := ClaimOf(st, call);
            && !r.Claimed? && next.leases == st.leases && next.nextHandle == st.nextHandle
            && forall id :: Record(st, id).Some? ==> id in next.states && next.states[id] == st.states[id]
  {
    hide MayClaim, PrunedFor, Kept, ClaimOf;
    RefusedAnswers(st, call);
    forall id | Record(st, id).Some?
      ensures id in ClaimOf(st, call).0.states && ClaimOf(st, call).0.states[id] == st.states[id]
    {
      KeptRecord(st, call, id);
    }
  }

  // What a granted claim answers and writes: the session's run as it was, where it
  // continues; the next generation under the new token and lease; no other record
  // that has not expired is touched.
  lemma ClaimedFinds(st: Store, call: Call)
    requires call.ClaimCall? && ClaimOf(st, call).1.Claimed?
    ensures call.opt.catalog.Some?
    ensures var (next, r) := ClaimOf(st, call);
            var (session, conversation, fp) := (Trim(call.session), Trim(call.conversation), Trim(call.fingerprint));
            var rec := Record(st, session);
            && session in next.states && next.states[session] == r.snapshot
            && Inherits(rec, r.snapshot, conversation, fp, call.opt, call.billingUuid)
            && (r.coldRebuild <==> OtherAccount(rec, fp))
            && r.snapshot.generation == (Before(rec, session, conversation).generation + 1) % TWO_TO_THE_64
            && r.snapshot.sessionId == session && r.snapshot.fingerprint == fp && r.snapshot.token == call.token
            && r.snapshot.updatedAt == st.now
            && r.owner == Owner("", session, r.snapshot.generation, call.token, fp, r.snapshot.conversationId,
                                r.snapshot.billingRunId, st.nextHandle)
            && next.leases == st.leases[st.nextHandle := session] && next.nextHandle == st.nextHandle + 1
            && forall id :: id != session && Record(st, id).Some? ==> id in next.states && next.states[id] == st.states[id]
  {
    hide PruneExpired, Prepare, ClaimSync, StateExpired, LookupHistory, Trim, Remove, Inherits, Admits;
    var (session, conversation, fp) := (Trim(call.session), Trim(call.conversation), Trim(call.fingerprint));
    ClaimedIff(st, call);
    assert MayClaim(st, call) && PrunedFor(st, call).1 && Kept(st, call).1;
    ClaimRuns(st, call);
    var rec := Record(st, session);
    AdmittedAnyway(rec, fp, call.opt);
    PrepareFinds(rec, session, conversation, fp, call.opt, call.billingUuid);
    PrepareAdmits(rec, session, conversation, fp, call.opt, call.billingUuid);
    FoundAsOwned(st, call);
    forall id | id != session && Record(st, id).Some?
      ensures id in Kept(st, call).0.states && Kept(st, call).0.states[id] == st.states[id]
    {
      PrunedRecord(st, call.due, call.order, call.completedOrder, id);
      if session in PrunedFor(st, call).0.states && StateExpired(PrunedFor(st, call).0.states[session], st.now, st.ttl) {
        RemovedRest(PrunedFor(st, call).0, session);
      }
    }
  }

  lemma AdmittedAnyway(rec: Option<Snapshot>, fp: string, opt: ClaimOptions)
    requires Admits(rec, fp, opt)
    ensures Admits(rec, fp, opt.(requireExisting := false)) && opt.catalog.Some?
  {
    hide Trim;
  }

  // Naming the owner changes nothing of what is found.
  lemma FoundAsOwned(st: Store, call: Call)
    requires call.ClaimCall?
    ensures forall rec, s, conversation, fp, session, now ::
              call.opt.catalog.Some? && Inherits(rec, s, conversation, fp, call.opt, call.billingUuid) ==>
                Inherits(rec, Owned(s, session, fp, call.token, now), conversation, fp, call.opt, call.billingUuid)
  {
    hide Trim, IsMetered;
  }

  // Another account never gets a session, or changes it, without leave to.
  lemma OtherAccountsAreRefused(st: Store, call: Call)
    requires call.ClaimCall? && !call.opt.allowCredentialChange
    requires OtherAccount(Record(st, Trim(call.session)), Trim(call.fingerprint))
    ensures var (next, r) := ClaimOf(st, call);
            && !r.Claimed? && Trim(call.session) in next.states && next.states[Trim(call.session)] == st.states[Trim(call.session)]
  {
    hide PruneExpired, Trim, LookupHistory, StateExpired;
    RefusedKeeps(st, call);
  }

  // ---------------------------------------------------------------------
  // What an owner saved
  // ---------------------------------------------------------------------

  // The next owner of the same account finds the checkpoint, follow-up, billing run
  // or usage carry that the last one saved before it released the session.
  lemma SavedFieldsAreFound(st: Store, save: Call, call: Call)
    requires save.CheckpointCall? || save.FollowUpCall? || save.BillingCall? || save.CarryCall?
    requires Call1(st, save).1 == Ok && call.ClaimCall? && Trim(call.session) == save.owner.session
    requires var next := Release(Call1(st, save).0, save.owner);
             ClaimOf(next, call).1.Claimed? && Continues(Record(next, save.owner.session), Trim(call.fingerprint), call.opt)
    ensures var s := ClaimOf(Release(Call1(st, save).0, save.owner), call).1.snapshot;
            && (save.CheckpointCall? ==> s.checkpoint == save.checkpoint && s.blobs == save.blobs)
            && (save.FollowUpCall? ==> s.followUp == Trim(save.followUp))
            && (save.BillingCall? && call.opt.reuseBillingRun ==> s.billingRunId == Trim(save.billing))
            && (save.CarryCall? && call.opt.reuseBillingRun ==> s.usageCarry == U.UsageEvidence(save.events))
  {
    hide Claim, Trim, StateExpired, U.UsageEvidence, CatalogKept, IsMetered;
    TrimTwice(if save.BillingCall? then save.billing else "");
    ClaimedFinds(Release(Call1(st, save).0, save.owner), call);
  }

  lemma TrimTwice(s: string)
    ensures Trim(Trim(s)) == Trim(s)
  {
    TrimStrips(s);
    TrimStrips(Trim(s));
  }

  // ---------------------------------------------------------------------
  // What goes
  // ---------------------------------------------------------------------

  // Pruning that succeeds removes exactly the listed sessions that have expired and
  // that nobody holds.
  lemma {:induction false} PruningIsExact(st: Store, order: seq<string>, id: string)
    requires PruneStates(st, order).1
    ensures var p := PruneStates(st, order).0;
            id in p.states <==> id in st.states && !(id in order && StateExpired(st.states[id], st.now, st.ttl) && !Held(st, id))
  {
    hide StateExpired, Sync;
    if order != [] {
      var front := order[..|order| - 1];
      PruningIsExact(st, front, id);
      PruneKeepsRecords(st, front);
      assert id in order <==> id in front || id == order[|order| - 1];
    }
  }

  // And exactly the listed completed snapshots that have expired.
  lemma {:induction false} PruningCompletedIsExact(c: Completed, now: Time, ttl: nat, order: seq<string>, key: string)
    ensures key in Prune(c, now, ttl, order).records <==> key in c.records && !(key in order && Expired(c.records[key], now, ttl))
  {
    hide Expired, Normalize, Trim, RemovePointers;
    if order != [] {
      var front := order[..|order| - 1];
      PruningCompletedIsExact(c, now, ttl, front, key);
      PruneKeeps(c, now, ttl, front);
      assert key in order <==> key in front || key == order[|order| - 1];
    }
  }

  // A deletion that answers Ok leaves no record of the session and every other one.
  lemma DeletedIsGone(st: Store, o: Owner)
    requires Delete(st, o).1 == Ok
    ensures Delete(st, o).0.states == st.states - {o.session}
  {
    hide Sync;
  }

  lemma DeletedSessionIsGone(st: Store, session: string, fp: string)
    requires DeleteSession(st, session, fp).1 == Ok
    ensures DeleteSession(st, session, fp).0.states == st.states - {Trim(session)}
    ensures Trim(session) in st.states ==> !Held(st, Trim(session)) && st.states[Trim(session)].fingerprint == Trim(fp)
  {
    hide Sync, Trim;
  }

  // The last owner's release frees the session, and no other.
  lemma ReleasedIsFree(st: Store, o: Owner, session: string)
    requires HasLease(st, o) && st.leases[o.handle] == o.session
    requires forall h :: h in st.leases && st.leases[h] == o.session ==> h == o.handle
    ensures Held(Release(st, o), session) <==> Held(st, session) && session != o.session
  {
    var next := Release(st, o);
    if Held(st, session) && session != o.session {
      var h :| h in st.leases && st.leases[h] == session;
      assert h in next.leases && next.leases[h] == session;
    }
    if Held(next, session) {
      var h :| h in next.leases && next.leases[h] == session;
      assert h in st.leases && st.leases[h] == session;
    }
  }
}
