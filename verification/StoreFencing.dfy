// Owners over every run of the store: one lease per session, and nothing through
// an owner that lost its lease.
module StoreFencing {
  import opened Events
  import opened Strings
  import opened ToolIds
  import opened StateSnapshots
  import opened PendingIndexes
  import opened CompletedSnapshots
  import opened StateStores
  import opened StoreRuns
  import U = Usages
  import E = EventSnapshots

  // UUIDs are new and not blank.
  predicate FreshToken(w: World, call: Call) {
    Claims(call) ==> ClaimIn(call).token !in w.tokens && Trim(ClaimIn(call).token) != ""
  }

  // The claim a call makes, whether or not the process dies in it.
  function ClaimIn(call: Call): Call {
    if call.DiesIn? then call.call else call
  }

  predicate Claims(call: Call) {
    ClaimIn(call).ClaimCall?
  }

  predicate FreshRun(w: World, calls: seq<Call>) {
    calls == [] || (FreshRun(w, calls[..|calls| - 1]) && FreshToken(Run(w, calls[..|calls| - 1]), calls[|calls| - 1]))
  }

  // ---------------------------------------------------------------------
  // What calls do to leases and tokens
  // ---------------------------------------------------------------------

  // No lease is taken and no record gets another owner.
  predicate TakesNothing(st: Store, next: Store) {
    && next.leases == st.leases && next.nextHandle == st.nextHandle
    && forall id :: id in next.states ==> id in st.states && next.states[id].token == st.states[id].token
  }

  lemma PruneTakesNothing(st: Store, due: bool, order: seq<string>, completedOrder: seq<string>)
    ensures TakesNothing(st, PruneExpired(st, due, order, completedOrder).0)
  {
    hide PruneStates, Prune;
    PruneKeepsRecords(st, order);
  }

  lemma RemoveTakesNothing(st: Store, id: string)
    requires id in st.states
    ensures TakesNothing(st, Remove(st, id).0) && Remove(st, id).0.states == st.states - {id}
  {
    hide Sync;
  }

  lemma PutTakesNothing(st: Store, o: Owner, s: Snapshot)
    requires o.session in st.states && s.token == st.states[o.session].token
    ensures TakesNothing(st, Put(st, o, s))
  {}

  lemma SaveCompletedTakesNothing(st: Store, o: Owner, results: seq<ToolResult>, events: seq<Event>, ephemeral: bool,
      followUp: string)
    ensures TakesNothing(st, SaveCompleted(st, o, results, events, ephemeral, followUp).0)
  {
    hide CanonicalResults, Write, Owns, CompletedRecord, E.Fill, TakesNothing;
    NothingTaken(st);
    if Owns(st, o) {
      OwnerHasRecord(st, o);
      var s := st.states[o.session];
      forall completed, f, e, at
        ensures TakesNothing(st, Put(st.(completed := completed), o, s.(followUp := f, ephemeral := e, completedAt := at)))
      {
        PutTakesNothing(st.(completed := completed), o, s.(followUp := f, ephemeral := e, completedAt := at));
        CompletedIsApart(st, completed, Put(st.(completed := completed), o,
            s.(followUp := f, ephemeral := e, completedAt := at)));
      }
    }
  }

  lemma NothingTaken(st: Store)
    ensures TakesNothing(st, st)
  {}

  lemma CompletedIsApart(st: Store, completed: Completed, next: Store)
    requires TakesNothing(st.(completed := completed), next)
    ensures TakesNothing(st, next)
  {}

  lemma SaveHistoryTakesNothing(st: Store, o: Owner, key: string, events: seq<Event>)
    ensures TakesNothing(st, SaveHistory(st, o, key, events).0)
  {
    hide WriteHistory, Owns, HistoryRecord, E.Fill, Visible, TakesNothing;
    NothingTaken(st);
    if Owns(st, o) {
      OwnerHasRecord(st, o);
      var s := st.states[o.session];
      PutTakesNothing(st, o, s);
      forall completed
        ensures TakesNothing(st, Put(st.(completed := completed), o, ClearedRun(s).(ephemeral := true, completedAt := st.now)))
      {
        PutTakesNothing(st.(completed := completed), o, ClearedRun(s).(ephemeral := true, completedAt := st.now));
        CompletedIsApart(st, completed, Put(st.(completed := completed), o,
            ClearedRun(s).(ephemeral := true, completedAt := st.now)));
      }
    }
  }

  lemma PendingTakesNothing(st: Store, o: Owner, pending: seq<PendingTool>)
    ensures TakesNothing(st, SavePending(st, o, pending).0)
  {
    hide Sync, ValidPending, NextBatch;
  }

  lemma Call1TakesNothing(st: Store, call: Call)
    ensures TakesNothing(st, Call1(st, call).0)
  {
    hide TakesNothing, SaveCompleted, SaveHistory, SavePending, Remove, Owns, Trim, U.UsageEvidence;
    NothingTaken(st);
    match call {
      case CheckpointCall(o, checkpoint, blobs, fits) =>
        if Owns(st, o) {
          OwnerHasRecord(st, o);
          PutTakesNothing(st, o, st.states[o.session].(checkpoint := checkpoint, blobs := blobs));
        }
      case FollowUpCall(o, followUp) =>
        if Owns(st, o) {
          OwnerHasRecord(st, o);
          PutTakesNothing(st, o, st.states[o.session].(followUp := Trim(followUp)));
        }
      case BillingCall(o, billing) =>
        if Owns(st, o) {
          OwnerHasRecord(st, o);
          PutTakesNothing(st, o, st.states[o.session].(billingRunId := Trim(billing)));
        }
      case CarryCall(o, events) =>
        if Owns(st, o) {
          OwnerHasRecord(st, o);
          PutTakesNothing(st, o, st.states[o.session].(usageCarry := U.UsageEvidence(events)));
        }
      case PendingCall(o, pending) => PendingTakesNothing(st, o, pending);
      case CompletedCall(o, results, events, ephemeral, followUp) => SaveCompletedTakesNothing(st, o, results,
          events, ephemeral, followUp);
      case HistoryCall(o, key, events) => SaveHistoryTakesNothing(st, o, key, events);
      case DeleteCall(o) =>
        if o.session in st.states {
          RemoveTakesNothing(st, o.session);
        }
      case DeleteSessionCall(session, fp) =>
        if Trim(session) in st.states {
          RemoveTakesNothing(st, Trim(session));
        }
      case _ =>
    }
  }

  // A claim that succeeds takes the next handle on a session that nobody holds;
  // any claim writes at most the new token.
  predicate ClaimTakes(st: Store, next: Store, r: ClaimResult, token: string) {
    && (forall id :: id in next.states ==> next.states[id].token == token || (id in st.states && next.states[id].token == st.states[id].token))
    && (if r.Claimed? then
          && !Held(st, r.owner.session) && r.owner.handle == st.nextHandle && r.owner.token == token
          && next.leases == st.leases[st.nextHandle := r.owner.session] && next.nextHandle == st.nextHandle + 1
          && r.owner.session in next.states && next.states[r.owner.session].token == token
        else next.leases == st.leases && next.nextHandle == st.nextHandle)
  }

  lemma ClaimWriteTakes(st: Store, session: string, before: Snapshot, ready: Prepared, fp: string, token: string)
    requires ready.Ready? && !Held(st, session)
    ensures var (next, r) := ClaimWrite(st, session, before, ready, fp, token); ClaimTakes(st, next, r, token)
  {
    hide ClaimSync;
  }

  lemma ClaimLeasedTakes(st: Store, session: string, conversation: string, fp: string, opt: ClaimOptions,
      token: string, billingUuid: string)
    requires !Held(st, session)
    ensures var (next, r) := ClaimLeased(st, session, conversation, fp, opt, token, billingUuid); ClaimTakes(st, next, r, token)
  {
    hide Remove, Prepare, ClaimWrite, StateExpired, LookupHistory;
    var expired := session in st.states && StateExpired(st.states[session], st.now, st.ttl);
    var kept := if expired then Remove(st, session).0 else st;
    if expired {
      RemoveTakesNothing(st, session);
    }
    var created := session !in kept.states;
    var current := if created then NewSnapshot(session, conversation) else kept.states[session];
    var ready := Prepare(current, created, conversation, fp, opt, billingUuid);
    if ready.Ready? {
      ClaimWriteTakes(kept, session, current, ready, fp, token);
    }
  }

  lemma ClaimTakesLease(st: Store, call: Call)
    requires call.ClaimCall?
    ensures var (next, r) := Claim(st, call.session, call.conversation, call.fingerprint, call.opt, call.token,
        call.billingUuid, call.order,
                                   call.completedOrder, call.due);
            ClaimTakes(st, next, r, call.token)
  {
    hide PruneExpired, ClaimLeased, Trim;
    PruneTakesNothing(st, call.due, call.order, call.completedOrder);
    var pruned := PruneExpired(st, call.due, call.order, call.completedOrder).0;
    if !Held(pruned, Trim(call.session)) {
      ClaimLeasedTakes(pruned, Trim(call.session), Trim(call.conversation), Trim(call.fingerprint), call.opt,
          call.token, call.billingUuid);
    }
  }

  // ---------------------------------------------------------------------
  // The fencing invariant
  // ---------------------------------------------------------------------

  // A session that was claimed again has retired its earlier owners, and their
  // tokens no longer stand in its record.
  predicate Superseded(w: World, i: nat, j: nat)
    requires i < j < |w.issued|
  {
    && w.issued[i].handle < w.issued[j].handle && w.issued[i].token != w.issued[j].token
    && (w.issued[i].session == w.issued[j].session ==>
          && w.issued[i].handle !in w.store.leases
          && (w.issued[i].session in w.store.states ==> w.store.states[w.issued[i].session].token != w.issued[i].token))
  }

  predicate Issued(w: World, o: Owner) {
    o.handle < w.store.nextHandle && o.token in w.tokens && (o.handle in w.store.leases ==> w.store.leases[o.handle] == o.session)
  }

  ghost predicate Fenced(w: World) {
    && (forall h :: h in w.store.leases ==> h < w.store.nextHandle)
    && (forall id :: id in w.store.states ==> w.store.states[id].token in w.tokens)
    && (forall i :: 0 <= i < |w.issued| ==> Issued(w, w.issued[i]))
    && (forall i, j :: 0 <= i < j < |w.issued| ==> Superseded(w, i, j))
  }

  predicate DropsLeases(st: Store, next: Store) {
    && next.nextHandle == st.nextHandle
    && forall h :: h in next.leases ==> h in st.leases && next.leases[h] == st.leases[h]
  }

  // Calls that take nothing, and calls that only drop leases.
  predicate Drops(st: Store, next: Store) {
    && DropsLeases(st, next)
    && forall id :: id in next.states ==> id in st.states && next.states[id].token == st.states[id].token
  }

  lemma DropsStayFenced(w: World, next: World)
    requires Fenced(w) && Drops(w.store, next.store) && next.issued == w.issued && next.tokens == w.tokens
    ensures Fenced(next)
  {
    forall i, j | 0 <= i < j < |next.issued|
      ensures Superseded(next, i, j)
    {
      assert Superseded(w, i, j);
    }
    forall i | 0 <= i < |next.issued|
      ensures Issued(next, next.issued[i])
    {
      assert Issued(w, w.issued[i]);
    }
  }

  lemma ClaimStaysFenced(w: World, call: Call)
    requires Fenced(w) && FreshToken(w, call) && call.ClaimCall?
    ensures Fenced(Step(w, call))
  {
    hide Claim, Trim, Superseded, Issued;
    var st := w.store;
    ClaimTakesLease(st, call);
    var next := Step(w, call);
    forall i | 0 <= i < |next.issued|
      ensures Issued(next, next.issued[i])
    {
      ClaimKeepsIssued(w, call, i);
    }
    forall i, j | 0 <= i < j < |next.issued|
      ensures Superseded(next, i, j)
    {
      ClaimSupersedes(w, call, i, j);
    }
  }

  lemma ClaimKeepsIssued(w: World, call: Call, i: nat)
    requires Fenced(w) && FreshToken(w, call) && call.ClaimCall? && i < |Step(w, call).issued|
    ensures Issued(Step(w, call), Step(w, call).issued[i])
  {
    hide Claim, Trim, Superseded;
    ClaimTakesLease(w.store, call);
    if i < |w.issued| {
      assert Issued(w, w.issued[i]);
    }
  }

  lemma ClaimSupersedes(w: World, call: Call, i: nat, j: nat)
    requires Fenced(w) && FreshToken(w, call) && call.ClaimCall? && i < j < |Step(w, call).issued|
    ensures Superseded(Step(w, call), i, j)
  {
    hide Claim, Trim;
    var next := Step(w, call);
    ClaimTakesLease(w.store, call);
    assert Issued(w, w.issued[i]);
    if j < |w.issued| {
      assert Superseded(w, i, j);
    } else if w.issued[i].handle in w.store.leases {
      assert w.issued[i].session in w.store.leases.Values;
    }
  }

  // A claim that dies may leave its token in the record, but no owner.
  lemma DyingLeaves(w: World, claim: Call, left: Index)
    requires claim.ClaimCall?
    ensures var next := Step(w, DiesIn(claim, left));
            && next.issued == w.issued && next.tokens == w.tokens + {claim.token}
            && next.store.leases == w.store.leases && next.store.nextHandle == w.store.nextHandle
            && forall id :: id in next.store.states ==>
                 next.store.states[id].token == claim.token
                 || (id in w.store.states && next.store.states[id].token == w.store.states[id].token)
  {
    hide Claim;
    ClaimTakesLease(w.store, claim);
  }

  lemma DyingStaysFenced(w: World, claim: Call, left: Index)
    requires Fenced(w) && FreshToken(w, claim) && claim.ClaimCall?
    ensures Fenced(Step(w, DiesIn(claim, left)))
  {
    hide Step, Trim;
    DyingLeaves(w, claim, left);
    var next := Step(w, DiesIn(claim, left));
    forall i | 0 <= i < |next.issued|
      ensures Issued(next, next.issued[i])
    {
      assert Issued(w, w.issued[i]);
    }
    forall i, j | 0 <= i < j < |next.issued|
      ensures Superseded(next, i, j)
    {
      assert Issued(w, w.issued[i]) && Superseded(w, i, j);
    }
  }

  lemma StepFenced(w: World, call: Call)
    requires Fenced(w) && FreshToken(w, call)
    ensures Fenced(Step(w, call))
  {
    hide Fenced, Step, Drops, Trim;
    if call.ClaimCall? {
      ClaimStaysFenced(w, call);
    } else if Claims(call) {
      DyingStaysFenced(w, call.call, call.left);
    } else {
      StepDrops(w, call);
      DropsStayFenced(w, Step(w, call));
    }
  }

  lemma TakesNothingDrops(st: Store, next: Store)
    requires TakesNothing(st, next)
    ensures Drops(st, next)
  {}

  lemma {:induction false} StepDrops(w: World, call: Call)
    requires !Claims(call)
    ensures var next := Step(w, call); Drops(w.store, next.store) && next.issued == w.issued && next.tokens == w.tokens
    decreases call
  {
    hide Open, Claim, Release, ResolvePending, StateStores.FindCompleted, PendingWrite, SavePending, Call1, Owns,
        ValidPending, Drops, TakesNothing;
    var (st, next) := (w.store, Step(w, call).store);
    Call1TakesNothing(st, call);
    NothingTaken(st);
    match call {
      case OpenCall(order, completedOrder) => OpenTakesNothing(st, order, completedOrder);
      case ResolveCall(fp, ids, order, completedOrder, due) => ResolveTakesNothing(st, fp, ids, order, completedOrder, due);
      case PendingCall(o, pending) => PendingTakesNothing(st, o, pending);
      case FindCall(fp, results, followUp, completedOrder, due) => FindTakesNothing(st, fp, results, followUp, completedOrder, due);
      case _ =>
    }
    if call.ReleaseCall? || call.Dies? || call.Tick? {
      OnlyDrops(w, call);
    } else if call.DiesIn? && UpdatesIndex(call.call) {
      StepDrops(w, call.call);
      DyingDrops(w, Step(w, call.call), call.left);
    } else {
      TakesNothingDrops(st, next);
    }
  }

  lemma DyingDrops(w: World, next: World, left: Index)
    requires Drops(w.store, next.store)
    ensures Drops(w.store, Dying(w, next, left).store)
  {}

  // Whatever happens, only a claim that succeeds takes a lease.
  lemma StepDropsLeases(w: World, call: Call)
    requires !call.ClaimCall?
    ensures DropsLeases(w.store, Step(w, call).store)
  {
    hide Drops;
    if Claims(call) {
      hide Claim;
    } else {
      hide Step;
      StepDrops(w, call);
      DropsIsDropsLeases(w.store, Step(w, call).store);
    }
  }

  lemma DropsIsDropsLeases(st: Store, next: Store)
    requires Drops(st, next)
    ensures DropsLeases(st, next)
  {}

  lemma OnlyDrops(w: World, call: Call)
    requires call.ReleaseCall? || call.Dies? || call.Tick?
    ensures Drops(w.store, Step(w, call).store)
  {}

  lemma OpenTakesNothing(st: Store, order: seq<string>, completedOrder: seq<string>)
    ensures TakesNothing(st, Open(st, order, completedOrder).0)
  {
    hide PruneExpired, Rebuild;
    PruneTakesNothing(st, true, order, completedOrder);
  }

  lemma ResolveTakesNothing(st: Store, fp: string, ids: seq<string>, order: seq<string>, completedOrder: seq<string>, due: bool)
    ensures TakesNothing(st, ResolvePending(st, fp, ids, order, completedOrder, due).0)
  {
    hide PruneExpired, Resolve, Trim, Normalize;
    PruneTakesNothing(st, due, order, completedOrder);
  }

  lemma FindTakesNothing(st: Store, fp: string, results: seq<ToolResult>, followUp: string, completedOrder: seq<string>, due: bool)
    ensures TakesNothing(st, StateStores.FindCompleted(st, fp, results, followUp, completedOrder, due).0)
  {
    FindKeeps(st, fp, results, followUp, completedOrder, due);
    hide StateStores.FindCompleted;
  }

  lemma {:induction false} RunFenced(w: World, calls: seq<Call>)
    requires Fenced(w) && FreshRun(w, calls)
    ensures Fenced(Run(w, calls))
  {
    hide Fenced, FreshToken, Step;
    if calls != [] {
      RunFenced(w, calls[..|calls| - 1]);
      StepFenced(Run(w, calls[..|calls| - 1]), calls[|calls| - 1]);
    }
  }

  // ---------------------------------------------------------------------
  // Fencing
  // ---------------------------------------------------------------------

  // A world before its first claim.
  predicate Unclaimed(w: World) {
    w.issued == [] && w.store.leases == map[] && forall id :: id in w.store.states ==> w.store.states[id].token in w.tokens
  }

  // In every reachable state a session has at most one owner that still holds its
  // lease, and its record carries the token of at most one owner: the last one
  // that was issued, also when the session was deleted and its generation starts
  // over.
  lemma OneOwner(w: World, calls: seq<Call>, i: nat, j: nat)
    requires Unclaimed(w) && FreshRun(w, calls)
    requires var end := Run(w, calls); i < j < |end.issued| && end.issued[i].session == end.issued[j].session
    ensures var end := Run(w, calls);
            && !HasLease(end.store, end.issued[i])
            && !(end.issued[i].session in end.store.states && OwnerMatches(end.store.states[end.issued[i].session], end.issued[i]))
  {
    hide Run, FreshRun;
    RunFenced(w, calls);
    assert Superseded(Run(w, calls), i, j);
  }

  lemma {:induction false} RetiredStaysRetired(w: World, calls: seq<Call>, handle: nat)
    requires handle !in w.store.leases && handle < w.store.nextHandle
    ensures var st := Run(w, calls).store; handle !in st.leases && handle < st.nextHandle
  {
    hide Step, Drops, ClaimTakes;
    if calls != [] {
      var (before, call) := (Run(w, calls[..|calls| - 1]), calls[|calls| - 1]);
      RetiredStaysRetired(w, calls[..|calls| - 1], handle);
      StepKeepsRetired(before, call, handle);
    }
  }

  lemma StepKeepsRetired(w: World, call: Call, handle: nat)
    requires handle !in w.store.leases && handle < w.store.nextHandle
    ensures var st := Step(w, call).store; handle !in st.leases && handle < st.nextHandle
  {
    if call.ClaimCall? {
      ClaimStepKeepsRetired(w, call, handle);
    } else {
      hide Step;
      StepDropsLeases(w, call);
    }
  }

  lemma ClaimStepKeepsRetired(w: World, call: Call, handle: nat)
    requires call.ClaimCall? && handle !in w.store.leases && handle < w.store.nextHandle
    ensures var st := Step(w, call).store; handle !in st.leases && handle < st.nextHandle
  {
    hide Claim, Trim;
    ClaimTakesLease(w.store, call);
  }

  predicate ThroughOwner(call: Call, o: Owner) {
    match call
    case CheckpointCall(p, _, _, _) => p == o
    case FollowUpCall(p, _) => p == o
    case BillingCall(p, _) => p == o
    case CarryCall(p, _) => p == o
    case PendingCall(p, _) => p == o
    case CompletedCall(p, _, _, _, _) => p == o
    case HistoryCall(p, _, _) => p == o
    case DeleteCall(p) => p == o
    case _ => false
  }

  // Once an owner has lost its lease, released or superseded, no save and no
  // delete through it ever succeeds or changes anything: neither a session record
  // nor a completed snapshot nor the index.
  lemma RetiredOwnersChangeNothing(w: World, calls: seq<Call>, o: Owner, call: Call)
    requires !HasLease(w.store, o) && o.handle < w.store.nextHandle && ThroughOwner(call, o)
    ensures var st := Run(w, calls).store; Call1(st, call).0 == st && Call1(st, call).1.Failed?
  {
    hide Run, Trim, CanonicalResults, E.Fill, Visible, ValidPending;
    RetiredStaysRetired(w, calls, o.handle);
  }
}
