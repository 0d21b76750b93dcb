// manager.go, manager_history.go: full-history requests of any number of
// managers on one store, in every interleaving with everything else.
module HistoryRuns {
  import opened Events
  import opened Strings
  import opened ToolIds
  import opened StateSnapshots
  import opened PendingIndexes
  import opened CompletedSnapshots
  import opened StateStores
  import opened StoreRuns
  import F = StoreFencing
  import R = StoreRetention
  import E = EventSnapshots

  // historySessionID.  The digest is modelled by its text between two marks, so
  // that like a digest it has no white space at its ends.
  function HistorySession(fp: string, key: string): string {
    "history_" + Joined([fp, key]) + "#"
  }

  // The snapshot file and the session of a history request stand and fall
  // together.
  lemma FileIffSession(f: string, k: string, g: string, l: string)
    ensures HistoryKey(f, k) == HistoryKey(g, l) <==> HistorySession(f, k) == HistorySession(g, l)
    ensures Trim(HistorySession(f, k)) == HistorySession(f, k) != ""
  {
    hide Trim;
    var (a, b) := (Joined([f, k]), Joined([g, l]));
    JoinedFirst("history-request", [f, k]);
    JoinedFirst("history-request", [g, l]);
    assert ["history-request"] + [f, k] == ["history-request", f, k] && ["history-request"] + [g, l] == ["history-request", g, l];
    assert ("history-request" + "\0" + a)[16..] == a && ("history-request" + "\0" + b)[16..] == b;
    assert ("history_" + a + "#")[8..][..|a|] == a && ("history_" + b + "#")[8..][..|b|] == b;
    TrimStrips(HistorySession(f, k));
  }

  // ---------------------------------------------------------------------
  // The managers
  // ---------------------------------------------------------------------

  datatype Phase =
    | Arrived
    | LookedUp
    | Reserved
    | Running(owner: Owner, claimedAt: Time)
    | Saved(owner: Owner)
    | Replayed(record: Tombstone)
    | Over

  datatype Request = Request(process: nat, fp: string, key: string, phase: Phase)

  // A generation that stored the snapshot of its request.
  datatype Commit = Commit(fp: string, key: string, claimedAt: Time, savedAt: Time, owner: Owner, events: seq<Event>)

  // `busy` joins the active and starting maps of every manager.
  datatype System = System(world: World, requests: seq<Request>, busy: set<(nat, string)>, commits: seq<Commit>)

  datatype Move =
    | Arrive(process: nat, fp: string, key: string)
    | LookUp(r: nat)
    | Reserve(r: nat)
    | ClaimLease(r: nat, conversation: string, opt: ClaimOptions, token: string, billingUuid: string,
        order: seq<string>, completedOrder: seq<string>, due: bool)
    // The run of the engine ended, with what it emitted or with an error.
    | EndRun(r: nat, events: seq<Event>)
    | FailRun(r: nat)
    | ReleaseRun(r: nat)
    // Any other call of the store: other sessions, saves during a run, Cancel, the
    // clock, crashes.
    | Outside(call: Call)

  function Session(q: Request): string {
    HistorySession(q.fp, q.key)
  }

  function SetPhase(s: System, r: nat, phase: Phase): System
    requires r < |s.requests|
  {
    s.(requests := s.requests[r := s.requests[r].(phase := phase)])
  }

  // A request that ends gives its reservation back.
  function EndRequest(s: System, r: nat, phase: Phase): System
    requires r < |s.requests|
  {
    SetPhase(s, r, phase).(busy := s.busy - {(s.requests[r].process, Session(s.requests[r]))})
  }

  // The claim of Start for a history request.
  function HistoryClaim(q: Request, m: Move): Call
    requires m.ClaimLease?
  {
    ClaimCall(Session(q), m.conversation, q.fp, m.opt.(historyKey := q.key, allowPending := true, requireCatalog := false,
                                                       allowCredentialChange := !m.opt.requireExisting),
              m.token, m.billingUuid, m.order, m.completedOrder, m.due)
  }

  function ClaimFor(st: Store, c: Call): (Store, ClaimResult)
    requires c.ClaimCall?
  {
    Claim(st, c.session, c.conversation, c.fingerprint, c.opt, c.token, c.billingUuid, c.order, c.completedOrder, c.due)
  }

  predicate Wrote(st: Store, o: Owner, key: string, events: seq<Event>) {
    SaveHistory(st, o, key, events).1 == Ok && SaveHistory(st, o, key, events).0.completed != st.completed
  }

  // Whether a request may make the move now.
  predicate Enabled(s: System, m: Move) {
    match m
    case Arrive(_, fp, key) => Trim(fp) == fp != "" && key != ""
    case LookUp(r) => r < |s.requests| && s.requests[r].phase.Arrived?
    case Reserve(r) => r < |s.requests| && s.requests[r].phase.LookedUp?
    case ClaimLease(r, _, _, _, _, _, _, _) => r < |s.requests| && s.requests[r].phase.Reserved?
    case EndRun(r, _) => r < |s.requests| && s.requests[r].phase.Running?
    case FailRun(r) => r < |s.requests| && s.requests[r].phase.Running?
    case ReleaseRun(r) => r < |s.requests| && s.requests[r].phase.Saved?
    case Outside(call) => !call.HistoryCall? && !(call.ClaimCall? && call.opt.historyKey != "")
  }

  function Next(s: System, m: Move): System
    requires Enabled(s, m)
  {
    var st := s.world.store;
    match m
    case Arrive(process, fp, key) => s.(requests := s.requests + [Request(process, fp, key, Arrived)])
    case LookUp(r) =>
      var found := LookupHistory(st.completed, st.now, st.ttl, s.requests[r].fp, s.requests[r].key);
      SetPhase(s, r, if found.Hit? then Phase.Replayed(found.record) else if found.Miss? then LookedUp else Over)
    case Reserve(r) =>
      var place := (s.requests[r].process, Session(s.requests[r]));
      if place in s.busy then SetPhase(s, r, Over) else SetPhase(s, r, Reserved).(busy := s.busy + {place})
    case ClaimLease(r, _, _, _, _, _, _, _) =>
      var call := HistoryClaim(s.requests[r], m);
      var result := ClaimFor(st, call).1;
      var t := s.(world := Step(s.world, call));
      match result {
        case Claimed(owner, _, _) => SetPhase(t, r, Running(owner, st.now))
        case Replayed(record) => EndRequest(t, r, Phase.Replayed(record))
        case Rejected(_) => EndRequest(t, r, Over)
      }
    case EndRun(r, events) =>
      var (q, o) := (s.requests[r], s.requests[r].phase.owner);
      var t := s.(world := Step(s.world, HistoryCall(o, q.key, events)));
      SetPhase(t, r, Saved(o)).(
        commits := s.commits
                   + if Wrote(st, o, q.key, events) then [Commit(q.fp, q.key, q.phase.claimedAt, st.now, o, events)] else [])
    case FailRun(r) => SetPhase(s, r, Saved(s.requests[r].phase.owner))
    case ReleaseRun(r) => EndRequest(s.(world := Step(s.world, ReleaseCall(s.requests[r].phase.owner))), r, Over)
    case Outside(call) => s.(world := Step(s.world, call))
  }

  // A run of the system; a move that is not enabled does nothing.
  function Reach(s: System, moves: seq<Move>): System {
    if moves == [] then s
    else
      var before := Reach(s, moves[..|moves| - 1]);
      if Enabled(before, moves[|moves| - 1]) then Next(before, moves[|moves| - 1]) else before
  }

  // ---------------------------------------------------------------------
  // Snapshots of history requests
  // ---------------------------------------------------------------------

  // A history record stays exactly as it is until it expires.
  predicate HistoryKept(c: Completed, d: Completed, now: Time, ttl: nat, file: string) {
    file in c.records && c.records[file].batchIds == [] ==>
      Expired(c.records[file], now, ttl) || (file in d.records && d.records[file] == c.records[file])
  }

  lemma GoneKeepsHistory(c: Completed, d: Completed, now: Time, ttl: nat, file: string)
    requires OnlyExpiredGone(c, d, now, ttl)
    ensures HistoryKept(c, d, now, ttl, file)
  {
    hide Expired;
  }

  // Tool-result snapshots are never written over a history record.
  lemma SaveCompletedKeepsHistory(st: Store, o: Owner, results: seq<ToolResult>, events: seq<Event>, ephemeral: bool,
      followUp: string, file: string)
    ensures HistoryKept(st.completed, SaveCompleted(st, o, results, events, ephemeral, followUp).0.completed, st.now,
        st.ttl, file)
  {
    hide CanonicalResults, Owns, E.Fill, Expired, Write, Trim, Digest;
    var canonical := CanonicalResults(results);
    if canonical.Results? && E.Fill(events).Some? && Owns(st, o) {
      OwnerHasRecord(st, o);
      CanonicalIsOrdered(results);
      CanonicalSelectsItself(canonical.results);
      var t := CompletedRecord(st.states[o.session], o, canonical.results, E.Fill(events).value.events, ephemeral,
          followUp, st.now);
      WriteKeepsHistory(st.completed, t, st.now, st.ttl, file);
    }
  }

  lemma WriteKeepsHistory(c: Completed, t: Tombstone, now: Time, ttl: nat, file: string)
    requires t.batchIds != []
    ensures HistoryKept(c, Write(c, t).0, now, ttl, file)
  {
    hide Trim, ResultKey, WritePointers, Expired;
  }

  lemma SaveHistoryKeepsHistory(st: Store, o: Owner, key: string, events: seq<Event>, file: string)
    ensures HistoryKept(st.completed, SaveHistory(st, o, key, events).0.completed, st.now, st.ttl, file)
  {
    hide Owns, E.Fill, Expired, HistoryKey, Visible;
  }

  lemma StepKeepsHistory(w: World, call: Call, file: string)
    ensures var next := Step(w, call).store;
            HistoryKept(w.store.completed, next.completed, w.store.now, w.store.ttl, file)
            && next.now >= w.store.now && next.ttl == w.store.ttl
  {
    hide HistoryKept, Step, Call1;
    var st := w.store;
    ClockRuns(w, call);
    match call {
      case CompletedCall(o, results, events, ephemeral, followUp) =>
        R.SaveIsStep(w, call);
        SaveCompletedKeepsHistory(st, o, results, events, ephemeral, followUp, file);
      case HistoryCall(o, key, events) =>
        R.SaveIsStep(w, call);
        SaveHistoryKeepsHistory(st, o, key, events, file);
      case _ =>
        R.StepGone(w, call);
        GoneKeepsHistory(st.completed, Step(w, call).store.completed, st.now, st.ttl, file);
    }
  }

  lemma ClockRuns(w: World, call: Call)
    ensures Step(w, call).store.now >= w.store.now && Step(w, call).store.ttl == w.store.ttl
  {
    hide Step, Past, Retains;
    R.StepKeeps(w, call);
  }

  // ---------------------------------------------------------------------
  // The invariant
  // ---------------------------------------------------------------------

  // The snapshot of a commit is stored, or its five minutes are over.
  predicate Remembered(st: Store, c: Commit) {
    || st.now - c.savedAt > COMPLETED_TTL
    || (var file := HistoryKey(c.fp, c.key);
        && file in st.completed.records
        && var t := st.completed.records[file];
        t.batchIds == [] && t.ephemeral && t.updatedAt != ZERO_TIME && c.savedAt <= t.updatedAt)
  }

  // A running generation that still has its lease was claimed after every earlier
  // snapshot of its request had expired.
  predicate StartedLate(s: System, q: Request) {
    q.phase.Running? ==>
      var o := q.phase.owner;
      && o.handle < s.world.store.nextHandle && o.session == Session(q) && o.fingerprint == q.fp
      && (o.handle in s.world.store.leases ==>
            && s.world.store.leases[o.handle] == o.session
            && forall c :: c in s.commits && HistoryKey(c.fp, c.key) == HistoryKey(q.fp, q.key) ==>
                 q.phase.claimedAt - c.savedAt > COMPLETED_TTL)
  }

  predicate Identified(q: Request) {
    q.key != "" && Trim(q.fp) == q.fp
  }

  predicate OneHandle(s: System, i: nat, j: nat)
    requires i < j < |s.requests|
  {
    s.requests[i].phase.Running? && s.requests[j].phase.Running? ==> s.requests[i].phase.owner.handle != s.requests[j].phase.owner.handle
  }

  predicate Separated(c: Commit, d: Commit) {
    HistoryKey(c.fp, c.key) == HistoryKey(d.fp, d.key) ==> d.claimedAt - c.savedAt > COMPLETED_TTL
  }

  predicate LeasesApart(st: Store) {
    && (forall h :: h in st.leases ==> h < st.nextHandle)
    && (forall h, g :: h in st.leases && g in st.leases && st.leases[h] == st.leases[g] ==> h == g)
  }

  ghost predicate Inv(s: System) {
    && s.world.store.now > 0 && LeasesApart(s.world.store)
    && (forall c :: c in s.commits ==> Remembered(s.world.store, c))
    && (forall i :: 0 <= i < |s.requests| ==> StartedLate(s, s.requests[i]) && Identified(s.requests[i]))
    && (forall i, j :: 0 <= i < j < |s.requests| ==> OneHandle(s, i, j))
    && (forall i, j :: 0 <= i < j < |s.commits| ==> Separated(s.commits[i], s.commits[j]))
  }

  lemma CallRemembers(w: World, call: Call, c: Commit)
    requires Remembered(w.store, c)
    ensures Remembered(Step(w, call).store, c)
  {
    hide Step, HistoryKey;
    StepKeepsHistory(w, call, HistoryKey(c.fp, c.key));
  }

  // A call that takes no lease keeps what is known of the running generations.
  lemma DroppingCallKeepsInv(s: System, call: Call)
    requires Inv(s) && !call.ClaimCall?
    ensures Inv(s.(world := Step(s.world, call)))
  {
    hide Step, HistoryKey, Remembered, Separated, Session;
    F.StepDropsLeases(s.world, call);
    ClockRuns(s.world, call);
    var t := s.(world := Step(s.world, call));
    forall c | c in s.commits
      ensures Remembered(t.world.store, c)
    {
      CallRemembers(s.world, call, c);
    }
    forall i | 0 <= i < |t.requests|
      ensures StartedLate(t, t.requests[i])
    {
      assert StartedLate(s, s.requests[i]);
    }
    forall i, j | 0 <= i < j < |t.requests|
      ensures OneHandle(t, i, j)
    {
      assert OneHandle(s, i, j);
    }
  }

  // A claim leaves the other requests as they were.
  lemma ClaimKeepsInv(s: System, call: Call)
    requires Inv(s) && call.ClaimCall?
    ensures Inv(s.(world := Step(s.world, call)))
  {
    hide HistoryKey, Remembered, Separated, Session, Claim;
    F.ClaimTakesLease(s.world.store, call);
    ClockRuns(s.world, call);
    var t := s.(world := Step(s.world, call));
    forall c | c in s.commits
      ensures Remembered(t.world.store, c)
    {
      CallRemembers(s.world, call, c);
    }
    forall i | 0 <= i < |t.requests|
      ensures StartedLate(t, t.requests[i])
    {
      assert StartedLate(s, s.requests[i]);
    }
    forall i, j | 0 <= i < j < |t.requests|
      ensures OneHandle(t, i, j)
    {
      assert OneHandle(s, i, j);
    }
    ClaimKeepsApart(s.world.store, call);
  }

  lemma ClaimKeepsApart(st: Store, call: Call)
    requires LeasesApart(st) && call.ClaimCall?
    ensures LeasesApart(ClaimFor(st, call).0)
  {
    hide Claim;
    F.ClaimTakesLease(st, call);
    var (next, r) := ClaimFor(st, call);
    if r.Claimed? {
      forall h, g | h in next.leases && g in next.leases && next.leases[h] == next.leases[g]
        ensures h == g
      {
        assert h in st.leases ==> st.leases[h] in st.leases.Values;
        assert g in st.leases ==> st.leases[g] in st.leases.Values;
      }
    }
  }

  // A snapshot that a lookup could still answer with.
  predicate LiveSnapshot(st: Store, fp: string, key: string) {
    HistoryKey(fp, key) in st.completed.records && !Expired(st.completed.records[HistoryKey(fp, key)], st.now, st.ttl)
  }

  lemma LeasedMeansNoSnapshot(st: Store, session: string, conversation: string, fp: string, opt: ClaimOptions,
      token: string, billingUuid: string)
    requires opt.historyKey != ""
    ensures var r := ClaimLeased(st, session, conversation, fp, opt, token, billingUuid).1;
            r.Claimed? ==> r.owner.session == session && r.owner.fingerprint == fp && !LiveSnapshot(st, fp, opt.historyKey)
  {
    hide Prepare, ClaimSync, Remove, StateExpired, HistoryKey, Expired;
  }

  // A history request that gets the lease, and so starts the engine, found no
  // unexpired snapshot of its key.
  lemma ClaimedMeansNoSnapshot(st: Store, q: Request, m: Move)
    requires m.ClaimLease? && q.key != "" && Trim(q.fp) == q.fp
    ensures var r := ClaimFor(st, HistoryClaim(q, m)).1;
            r.Claimed? ==> r.owner.session == Session(q) && r.owner.fingerprint == q.fp && !LiveSnapshot(st, q.fp, q.key)
  {
    hide PruneExpired, ClaimLeased, Trim, HistorySession, OnlyExpiredGone, HistoryKey, Expired;
    FileIffSession(q.fp, q.key, q.fp, q.key);
    var c := HistoryClaim(q, m);
    R.PruneExpiredGone(st, m.due, m.order, m.completedOrder);
    var pruned := PruneExpired(st, m.due, m.order, m.completedOrder).0;
    LeasedMeansNoSnapshot(pruned, Trim(c.session), Trim(c.conversation), Trim(c.fingerprint), c.opt, c.token, c.billingUuid);
    GoneIsNotLive(st, pruned, q.fp, q.key);
  }

  lemma GoneIsNotLive(st: Store, next: Store, fp: string, key: string)
    requires OnlyExpiredGone(st.completed, next.completed, st.now, st.ttl) && next.now == st.now && next.ttl == st.ttl
    ensures LiveSnapshot(st, fp, key) ==> LiveSnapshot(next, fp, key)
  {
    hide HistoryKey, Expired;
  }

  lemma RememberedIsLive(st: Store, c: Commit)
    requires Remembered(st, c) && st.now - c.savedAt <= COMPLETED_TTL && st.now > 0
    ensures HistoryKey(c.fp, c.key) in st.completed.records
    ensures var t := st.completed.records[HistoryKey(c.fp, c.key)]; t.ephemeral && c.savedAt <= t.updatedAt
    ensures LiveSnapshot(st, c.fp, c.key)
  {
    hide HistoryKey;
  }

  // A request that does not run, or stops running, needs nothing.
  lemma IdlePhaseKeepsInv(s: System, r: nat, phase: Phase)
    requires Inv(s) && r < |s.requests| && !phase.Running?
    ensures forall busy :: Inv(SetPhase(s, r, phase).(busy := busy))
  {
    hide HistoryKey, Remembered, Separated, Session, LeasesApart, Trim;
    forall busy
      ensures Inv(SetPhase(s, r, phase).(busy := busy))
    {
      var t := SetPhase(s, r, phase).(busy := busy);
      forall i | 0 <= i < |t.requests|
        ensures StartedLate(t, t.requests[i]) && Identified(t.requests[i])
      {
        assert StartedLate(s, s.requests[i]);
      }
      forall i, j | 0 <= i < j < |t.requests|
        ensures OneHandle(t, i, j)
      {
        assert OneHandle(s, i, j);
      }
    }
  }

  lemma ArriveKeepsInv(s: System, q: Request)
    requires Inv(s) && q.phase.Arrived? && Identified(q)
    ensures Inv(s.(requests := s.requests + [q]))
  {
    hide HistoryKey, Remembered, Separated, Session, LeasesApart, Trim;
    var t := s.(requests := s.requests + [q]);
    forall i | 0 <= i < |t.requests|
      ensures StartedLate(t, t.requests[i]) && Identified(t.requests[i])
    {
      if i < |s.requests| {
        assert StartedLate(s, s.requests[i]);
      }
    }
    forall i, j | 0 <= i < j < |t.requests|
      ensures OneHandle(t, i, j)
    {
      if j < |s.requests| {
        assert OneHandle(s, i, j);
      }
    }
  }

  // The request that just got its lease starts the engine.
  lemma StartKeepsInv(s: System, m: Move)
    requires Inv(s) && m.ClaimLease? && Enabled(s, m) && ClaimFor(s.world.store, HistoryClaim(s.requests[m.r], m)).1.Claimed?
    ensures Inv(Next(s, m))
  {
    hide HistoryKey, Remembered, Separated, HistorySession, LeasesApart, Trim, Claim, HistoryClaim, LiveSnapshot;
    var (st, q) := (s.world.store, s.requests[m.r]);
    var call := HistoryClaim(q, m);
    assert call.ClaimCall? by { HistoryClaimIsClaim(q, m); }
    ClaimKeepsInv(s, call);
    var t := s.(world := Step(s.world, call));
    assert Identified(q);
    ClaimedMeansNoSnapshot(st, q, m);
    F.ClaimTakesLease(st, call);
    var owner := ClaimFor(st, call).1.owner;
    var u := SetPhase(t, m.r, Running(owner, st.now));
    forall i | 0 <= i < |u.requests|
      ensures StartedLate(u, u.requests[i]) && Identified(u.requests[i])
    {
      if i == m.r {
        forall c | c in s.commits && HistoryKey(c.fp, c.key) == HistoryKey(q.fp, q.key)
          ensures st.now - c.savedAt > COMPLETED_TTL
        {
          if st.now - c.savedAt <= COMPLETED_TTL {
            RememberedIsLive(st, c);
            SameFileIsLive(st, c.fp, c.key, q.fp, q.key);
          }
        }
      } else {
        assert StartedLate(t, t.requests[i]);
      }
    }
    forall i, j | 0 <= i < j < |u.requests|
      ensures OneHandle(u, i, j)
    {
      assert OneHandle(t, i, j) && StartedLate(s, s.requests[i]) && StartedLate(s, s.requests[j]);
    }
  }

  lemma HistoryClaimIsClaim(q: Request, m: Move)
    requires m.ClaimLease?
    ensures HistoryClaim(q, m).ClaimCall?
  {}

  lemma SameFileIsLive(st: Store, f: string, k: string, g: string, l: string)
    requires HistoryKey(f, k) == HistoryKey(g, l)
    ensures LiveSnapshot(st, f, k) <==> LiveSnapshot(st, g, l)
  {
    hide HistoryKey, Expired;
  }

  // What a stored history snapshot looks like right after it was written.
  lemma WrittenIsRemembered(st: Store, o: Owner, q: Request, events: seq<Event>, claimedAt: Time)
    requires Wrote(st, o, q.key, events) && o.fingerprint == q.fp && st.now > 0
    ensures Remembered(SaveHistory(st, o, q.key, events).0, Commit(q.fp, q.key, claimedAt, st.now, o, events)) && HasLease(st, o)
  {
    hide HistoryKey, E.Fill, Expired, Visible;
  }

  // A lease is held by one running request.
  lemma OthersLackLease(s: System, r: nat, i: nat)
    requires Inv(s) && r < |s.requests| && i < |s.requests| && i != r
    requires s.requests[r].phase.Running? && s.requests[i].phase.Running?
    requires HasLease(s.world.store, s.requests[r].phase.owner)
    requires HistoryKey(s.requests[r].fp, s.requests[r].key) == HistoryKey(s.requests[i].fp, s.requests[i].key)
    ensures !HasLease(s.world.store, s.requests[i].phase.owner)
  {
    hide HistoryKey, HistorySession, Remembered, Separated, Trim;
    FileIffSession(s.requests[r].fp, s.requests[r].key, s.requests[i].fp, s.requests[i].key);
    assert StartedLate(s, s.requests[i]) && StartedLate(s, s.requests[r]);
    assert OneHandle(s, if r < i then r else i, if r < i then i else r);
  }

  lemma CommitKeepsInv(s: System, r: nat, events: seq<Event>)
    requires Inv(s) && Enabled(s, EndRun(r, events)) && Wrote(s.world.store, s.requests[r].phase.owner, s.requests[r].key, events)
    ensures Inv(Next(s, EndRun(r, events)))
  {
    hide HistoryKey, HistorySession, Remembered, LeasesApart, Trim, Wrote, Claim;
    var (st, q, o) := (s.world.store, s.requests[r], s.requests[r].phase.owner);
    var call := HistoryCall(o, q.key, events);
    DroppingCallKeepsInv(s, call);
    R.SaveIsStep(s.world, call);
    assert StartedLate(s, q);
    WrittenIsRemembered(st, o, q, events, q.phase.claimedAt);
    var t := s.(world := Step(s.world, call));
    var d := Commit(q.fp, q.key, q.phase.claimedAt, st.now, o, events);
    var u := SetPhase(t, r, Saved(o)).(commits := s.commits + [d]);
    assert StartedLate(s, q);
    forall i | 0 <= i < |u.requests|
      ensures StartedLate(u, u.requests[i]) && Identified(u.requests[i])
    {
      assert StartedLate(t, t.requests[i]) && Identified(s.requests[i]);
      if i != r && s.requests[i].phase.Running? && HistoryKey(q.fp, q.key) == HistoryKey(s.requests[i].fp, s.requests[i].key) {
        OthersLackLease(s, r, i);
        HistoryCallDropsOnly(s.world, call, s.requests[i].phase.owner);
      }
    }
    forall i, j | 0 <= i < j < |u.requests|
      ensures OneHandle(u, i, j)
    {
      assert OneHandle(t, i, j);
    }
    forall i, j | 0 <= i < j < |u.commits|
      ensures Separated(u.commits[i], u.commits[j])
    {
      if j < |s.commits| {
        assert Separated(s.commits[i], s.commits[j]);
      } else {
        assert s.commits[i] in s.commits;
      }
    }
  }

  lemma HistoryCallDropsOnly(w: World, call: Call, o: Owner)
    requires !call.ClaimCall? && !HasLease(w.store, o)
    ensures !HasLease(Step(w, call).store, o)
  {
    hide Step;
    F.StepDropsLeases(w, call);
  }

  lemma MoveKeepsInv(s: System, m: Move)
    requires Inv(s) && Enabled(s, m)
    ensures Inv(Next(s, m))
  {
    hide Inv, HistoryClaim, LookupHistory, Claim, Step, Wrote, Trim, Session;
    match m {
      case Arrive(process, fp, key) => ArriveKeepsInv(s, Request(process, fp, key, Arrived));
      case LookUp(r) =>
        forall phase: Phase | !phase.Running?
          ensures Inv(SetPhase(s, r, phase).(busy := s.busy))
        {
          IdlePhaseKeepsInv(s, r, phase);
        }
      case Reserve(r) =>
        forall phase: Phase, busy | !phase.Running?
          ensures Inv(SetPhase(s, r, phase).(busy := busy))
        {
          IdlePhaseKeepsInv(s, r, phase);
        }
      case ClaimLease(r, _, _, _, _, _, _, _) => ClaimMoveKeepsInv(s, m);
      case EndRun(r, events) =>
        if Wrote(s.world.store, s.requests[r].phase.owner, s.requests[r].key, events) {
          CommitKeepsInv(s, r, events);
        } else {
          var call := HistoryCall(s.requests[r].phase.owner, s.requests[r].key, events);
          DroppingCallKeepsInv(s, call);
          IdlePhaseKeepsInv(s.(world := Step(s.world, call)), r, Saved(s.requests[r].phase.owner));
          NothingAdded(s.commits);
          assert Inv(SetPhase(s.(world := Step(s.world, call)), r, Saved(s.requests[r].phase.owner)).(busy := s.busy));
        }
      case FailRun(r) =>
        IdlePhaseKeepsInv(s, r, Saved(s.requests[r].phase.owner));
        assert Inv(SetPhase(s, r, Saved(s.requests[r].phase.owner)).(busy := s.busy));
      case ReleaseRun(r) =>
        var call := ReleaseCall(s.requests[r].phase.owner);
        DroppingCallKeepsInv(s, call);
        IdlePhaseKeepsInv(s.(world := Step(s.world, call)), r, Over);
      case Outside(call) =>
        if call.ClaimCall? {
          ClaimKeepsInv(s, call);
        } else {
          DroppingCallKeepsInv(s, call);
        }
    }
  }

  lemma NothingAdded(commits: seq<Commit>)
    ensures commits + [] == commits
  {}

  lemma ClaimMoveKeepsInv(s: System, m: Move)
    requires Inv(s) && m.ClaimLease? && Enabled(s, m)
    ensures Inv(Next(s, m))
  {
    hide Inv, HistoryClaim, Claim, Step, Trim, Session;
    var call := HistoryClaim(s.requests[m.r], m);
    assert call.ClaimCall? by { HistoryClaimIsClaim(s.requests[m.r], m); }
    var result := ClaimFor(s.world.store, call).1;
    if result.Claimed? {
      StartKeepsInv(s, m);
    } else {
      ClaimKeepsInv(s, call);
      var t := s.(world := Step(s.world, call));
      IdlePhaseKeepsInv(t, m.r, if result.Replayed? then Phase.Replayed(result.record) else Over);
    }
  }

  lemma {:induction false} ReachKeepsInv(s: System, moves: seq<Move>)
    requires Inv(s)
    ensures Inv(Reach(s, moves))
  {
    hide Inv, Enabled, Next;
    if moves != [] {
      ReachKeepsInv(s, moves[..|moves| - 1]);
      var before := Reach(s, moves[..|moves| - 1]);
      if Enabled(before, moves[|moves| - 1]) {
        MoveKeepsInv(before, moves[|moves| - 1]);
      }
    }
  }

  // ---------------------------------------------------------------------
  // What clients may rely on
  // ---------------------------------------------------------------------

  predicate Initial(s: System) {
    s.requests == [] && s.commits == [] && s.world.store.now > 0 && s.world.store.leases == map[]
  }

  // While an unexpired snapshot of its key is stored, a request that would get the
  // lease never starts the engine.
  lemma NoStartWhileLive(s: System, moves: seq<Move>, m: Move)
    requires Initial(s) && Enabled(Reach(s, moves), m) && m.ClaimLease?
    requires var t := Reach(s, moves); LiveSnapshot(t.world.store, t.requests[m.r].fp, t.requests[m.r].key)
    ensures !Next(Reach(s, moves), m).requests[m.r].phase.Running?
  {
    hide Reach, Claim, Step, HistoryClaim, LiveSnapshot, StartedLate, OneHandle, Remembered, Separated, LeasesApart,
        Session;
    InitialInv(s);
    ReachKeepsInv(s, moves);
    var t := Reach(s, moves);
    assert Identified(t.requests[m.r]);
    HistoryClaimIsClaim(t.requests[m.r], m);
    ClaimedMeansNoSnapshot(t.world.store, t.requests[m.r], m);
  }

  lemma InitialInv(s: System)
    requires Initial(s)
    ensures Inv(s)
  {}

  // Of two generations that both stored a snapshot for one key, the later one was
  // claimed only after the earlier snapshot had expired.
  lemma GenerationsAreSeparated(s: System, moves: seq<Move>, i: nat, j: nat)
    requires Initial(s)
    requires var t := Reach(s, moves);
             i < j < |t.commits| && t.commits[i].fp == t.commits[j].fp && t.commits[i].key == t.commits[j].key
    ensures var t := Reach(s, moves); t.commits[j].claimedAt - t.commits[i].savedAt > COMPLETED_TTL
  {
    hide Reach, HistoryKey;
    InitialInv(s);
    ReachKeepsInv(s, moves);
    assert Separated(Reach(s, moves).commits[i], Reach(s, moves).commits[j]);
  }
}
