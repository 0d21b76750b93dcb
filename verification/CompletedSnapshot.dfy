// completed_state.go and completed_request.go: snapshots of finished requests,
// kept for replays until they expire.
module CompletedSnapshots {
  import opened Events
  import opened Strings
  import opened ToolIds
  import opened StateSnapshots
  import opened PendingIndexes
  import J = Json

  const MAX_PENDING_TOOLS: nat := 256
  const MAX_PENDING_TOOL_BYTES: nat := 0x1000_0000

  // ---------------------------------------------------------------------
  // Tool results
  // ---------------------------------------------------------------------

  datatype Canonical = Results(results: seq<ToolResult>) | Unusable | TooLarge

  function MediaBytes(media: seq<MediaPart>): nat {
    if media == [] then 0 else MediaBytes(media[..|media| - 1]) + J.Size(media[|media| - 1].data)
  }

  function Media(r: ToolResult): seq<MediaPart> {
    if r.media.Some? then r.media.value else []
  }

  function ResultBytes(results: seq<ToolResult>): nat {
    if results == [] then 0
    else
      var r := results[|results| - 1];
      ResultBytes(results[..|results| - 1]) + J.Size(r.toolCallId) + J.Size(r.content) + MediaBytes(Media(r))
  }

  function ResultIds(results: seq<ToolResult>): seq<string> {
    seq(|results|, i requires 0 <= i < |results| => results[i].toolCallId)
  }

  // The results with trimmed ids, up to the first one that is refused.
  function Trimming(results: seq<ToolResult>): Canonical {
    if results == [] then Results([])
    else
      var before := Trimming(results[..|results| - 1]);
      var r := results[|results| - 1].(toolCallId := Trim(results[|results| - 1].toolCallId));
      if !before.Results? then before
      else if r.toolCallId == "" || r.toolCallId in ResultIds(before.results) then Unusable
      else if ResultBytes(before.results + [r]) > MAX_PENDING_TOOL_BYTES then TooLarge
      else Results(before.results + [r])
  }

  // Results ordered by id, as sort.Slice leaves them when the ids are distinct.
  function InsertResult(results: seq<ToolResult>, r: ToolResult): seq<ToolResult> {
    if results == [] || Less(results[|results| - 1].toolCallId, r.toolCallId) then results + [r]
    else InsertResult(results[..|results| - 1], r) + [results[|results| - 1]]
  }

  function SortResults(results: seq<ToolResult>): seq<ToolResult> {
    if results == [] then [] else InsertResult(SortResults(results[..|results| - 1]), results[|results| - 1])
  }

  // canonicalToolResults
  function CanonicalResults(results: seq<ToolResult>): Canonical {
    if results == [] || |results| > MAX_PENDING_TOOLS then Unusable
    else
      var trimmed := Trimming(results);
      if trimmed.Results? then Results(SortResults(trimmed.results)) else trimmed
  }

  function BatchIds(results: seq<ToolResult>): seq<string> {
    Normalize(ResultIds(results))
  }

  function DigestFields(results: seq<ToolResult>): seq<string> {
    if results == [] then []
    else
      var r := results[0];
      [r.toolCallId, r.content, if r.isError then "1" else "0"] + DigestFields(results[1..])
  }

  // toolResultDigest: the hashed material, every field followed by NUL.
  function Digest(results: seq<ToolResult>): string {
    Joined(DigestFields(results) + [""])
  }

  // What the digest covers: not the media.
  predicate SameAnswer(a: ToolResult, b: ToolResult) {
    a.toolCallId == b.toolCallId && a.content == b.content && a.isError == b.isError
  }

  predicate SameAnswers(a: seq<ToolResult>, b: seq<ToolResult>) {
    |a| == |b| && forall i :: 0 <= i < |a| ==> SameAnswer(a[i], b[i])
  }

  predicate NulFreeResults(results: seq<ToolResult>) {
    forall r :: r in results ==> NulFree(r.toolCallId) && NulFree(r.content)
  }

  lemma {:induction false} FieldsAreNulFree(results: seq<ToolResult>)
    requires NulFreeResults(results)
    ensures NulFreeFields(DigestFields(results)) && |DigestFields(results)| == 3 * |results|
  {
    if results != [] {
      assert results[0] in results;
      FieldsAreNulFree(results[1..]);
    }
  }

  lemma {:induction false} FieldsGiveAnswers(a: seq<ToolResult>, b: seq<ToolResult>)
    ensures DigestFields(a) == DigestFields(b) <==> SameAnswers(a, b)
  {
    if a != [] && b != [] {
      FieldsGiveAnswers(a[1..], b[1..]);
      var (f, g) := (DigestFields(a), DigestFields(b));
      assert f[..3] == [a[0].toolCallId, a[0].content, if a[0].isError then "1" else "0"] && f[3..] == DigestFields(a[1..]);
      assert g[..3] == [b[0].toolCallId, b[0].content, if b[0].isError then "1" else "0"] && g[3..] == DigestFields(b[1..]);
      assert f == f[..3] + f[3..] && g == g[..3] + g[3..];
      assert SameAnswers(a, b) ==> SameAnswers(a[1..], b[1..]);
      if f == g {
        assert f[0] == g[0] && f[1] == g[1] && f[2] == g[2];
        assert forall i :: 1 <= i < |a| ==> a[i] == a[1..][i - 1] && b[i] == b[1..][i - 1];
      }
    }
  }

  // Results have one digest exactly when they answer alike, if no id or content
  // holds a NUL.
  lemma DigestIsFaithful(a: seq<ToolResult>, b: seq<ToolResult>)
    requires NulFreeResults(a) && NulFreeResults(b)
    ensures Digest(a) == Digest(b) <==> SameAnswers(a, b)
  {
    FieldsAreNulFree(a);
    FieldsAreNulFree(b);
    FieldsGiveAnswers(a, b);
    var (f, g) := (DigestFields(a), DigestFields(b));
    if Digest(a) == Digest(b) {
      JoinedIsInjective(f + [""], g + [""]);
      assert f == (f + [""])[..|f + [""]| - 1] && g == (g + [""])[..|g + [""]| - 1];
    }
  }

  lemma JoinedFirst(field: string, rest: seq<string>)
    requires rest != []
    ensures Joined([field] + rest) == field + "\0" + Joined(rest)
  {
    assert ([field] + rest)[1..] == rest;
  }

  // A NUL inside a content blurs where it ends.
  lemma NulJoinsFields(x: string, y: string, rest: seq<string>)
    requires rest != []
    ensures Joined([x + "\0" + y] + rest) == Joined([x, y] + rest)
  {
    JoinedFirst(x + "\0" + y, rest);
    JoinedFirst(y, rest);
    JoinedFirst(x, [y] + rest);
    assert [x] + ([y] + rest) == [x, y] + rest;
    assert x + "\0" + y + "\0" + Joined(rest) == x + "\0" + (y + "\0" + Joined(rest));
  }

  // So two results can share the digest of one whose content spells out the rest.
  lemma NulBlursDigest(a: string, x: string, b: string, y: string)
    ensures Digest([ToolResult(a, x, false, None), ToolResult(b, y, false, None)])
         == Digest([ToolResult(a, x + "\0" + ("0" + "\0" + (b + "\0" + y)), false, None)])
  {
    hide Joined;
    var two := [ToolResult(a, x, false, None), ToolResult(b, y, false, None)];
    var content := x + "\0" + ("0" + "\0" + (b + "\0" + y));
    var one := [ToolResult(a, content, false, None)];
    assert two[1..] == [two[1]] && DigestFields(two[1..]) == [b, y, "0"];
    assert DigestFields(two) + [""] == [a] + [x, "0", b, y, "0", ""];
    assert DigestFields(one) + [""] == [a] + [content, "0", ""];
    JoinedFirst(a, [x, "0", b, y, "0", ""]);
    JoinedFirst(a, [content, "0", ""]);
    calc {
      Joined([content, "0", ""]);
      { NulJoinsFields(x, "0" + "\0" + (b + "\0" + y), ["0", ""]); assert [content] + ["0", ""] == [content, "0", ""]; }
      Joined([x, "0" + "\0" + (b + "\0" + y)] + ["0", ""]);
      { SecondNulJoinsFields(x, "0", b + "\0" + y, ["0", ""]); }
      Joined([x, "0", b + "\0" + y] + ["0", ""]);
      { ThirdNulJoinsFields(x, "0", b, y, ["0", ""]); }
      Joined([x, "0", b, y] + ["0", ""]);
      { assert [x, "0", b, y] + ["0", ""] == [x, "0", b, y, "0", ""]; }
      Joined([x, "0", b, y, "0", ""]);
    }
  }

  lemma SecondNulJoinsFields(w: string, x: string, y: string, rest: seq<string>)
    requires rest != []
    ensures Joined([w, x + "\0" + y] + rest) == Joined([w, x, y] + rest)
  {
    hide Joined;
    NulJoinsFields(x, y, rest);
    JoinedFirst(w, [x + "\0" + y] + rest);
    JoinedFirst(w, [x, y] + rest);
    assert [w] + ([x + "\0" + y] + rest) == [w, x + "\0" + y] + rest && [w] + ([x, y] + rest) == [w, x, y] + rest;
  }

  lemma ThirdNulJoinsFields(v: string, w: string, x: string, y: string, rest: seq<string>)
    requires rest != []
    ensures Joined([v, w, x + "\0" + y] + rest) == Joined([v, w, x, y] + rest)
  {
    hide Joined;
    SecondNulJoinsFields(w, x, y, rest);
    JoinedFirst(v, [w, x + "\0" + y] + rest);
    JoinedFirst(v, [w, x, y] + rest);
    assert [v] + ([w, x + "\0" + y] + rest) == [v, w, x + "\0" + y] + rest && [v] + ([w, x, y] + rest) == [v, w, x, y] + rest;
  }

  // completedResultsForBatch: the results of a batch, if each id has one.
  function Selected(results: seq<ToolResult>, batch: seq<string>): seq<ToolResult> {
    if results == [] then []
    else
      var r := results[|results| - 1];
      Selected(results[..|results| - 1], batch) + if r.toolCallId in batch then [r] else []
  }

  function ResultsForBatch(results: seq<ToolResult>, batch: seq<string>): Option<seq<ToolResult>> {
    if batch == [] || exists id :: id in batch && id !in ResultIds(results) then None
    else Some(SortResults(Selected(results, batch)))
  }

  // ---------------------------------------------------------------------
  // Records
  // ---------------------------------------------------------------------

  datatype Tombstone = Tombstone(
    requestKey: string,
    requestSegmentId: string,
    fingerprint: string,
    batchIds: seq<string>,
    digest: string,
    results: seq<ToolResult>,
    events: seq<Event>,
    billingRunId: string,
    sessionId: string,
    conversationId: string,
    hasPending: bool,
    followUp: string,
    ephemeral: bool,
    updatedAt: Time)

  // Files are named by a hash; they are modelled by the hashed text itself, so
  // texts that coincide are one file.
  datatype Completed = Completed(records: map<string, Tombstone>, pointers: map<ToolKey, Pointer>)

  function FollowUpField(followUp: string): seq<string> {
    if Trim(followUp) == "" then [] else [Trim(followUp)]
  }

  // completedIndexPaths, on a normalized batch.
  function ResultKey(fp: string, batch: seq<string>, followUp: string): string {
    Joined([fp] + batch + FollowUpField(followUp))
  }

  function HistoryKey(fp: string, key: string): string {
    Joined(["history-request", fp, key])
  }

  // completedTombstoneExpired
  predicate Expired(t: Tombstone, now: Time, ttl: nat) {
    var keep := if t.ephemeral then COMPLETED_TTL else ttl;
    t.updatedAt != ZERO_TIME && keep > 0 && now - t.updatedAt > keep
  }

  // The follow-up "b" of the batch {a} and the batch {a, b} share a file.
  lemma KeysCoincide(fp: string, a: string, b: string)
    requires Trim(b) == b && b != ""
    ensures ResultKey(fp, [a], b) == ResultKey(fp, [a, b], "")
  {
    assert Trim("") == "";
    assert [fp] + [a] + [b] == [fp] + [a, b] + [];
  }

  // Otherwise NUL-free identities differ in their key exactly when one is not the
  // other with its follow-up counted as the last id.
  lemma KeysDiffer(fp: string, b: seq<string>, f: string, gp: string, c: seq<string>, g: string)
    requires NulFreeFields([fp] + b + FollowUpField(f)) && NulFreeFields([gp] + c + FollowUpField(g))
    ensures ResultKey(fp, b, f) == ResultKey(gp, c, g) <==> fp == gp && b + FollowUpField(f) == c + FollowUpField(g)
  {
    var (x, y) := ([fp] + b + FollowUpField(f), [gp] + c + FollowUpField(g));
    assert x[1..] == b + FollowUpField(f) && y[1..] == c + FollowUpField(g);
    assert x == [fp] + (b + FollowUpField(f)) && y == [gp] + (c + FollowUpField(g));
    if ResultKey(fp, b, f) == ResultKey(gp, c, g) {
      JoinedIsInjective(x, y);
      assert x[0] == y[0];
    }
  }

  datatype Saved = Written | Conflict | IdentityMismatch

  // What the two saves of one key must agree on.
  predicate SameIdentity(a: Tombstone, b: Tombstone) {
    a.fingerprint == b.fingerprint && Normalize(a.batchIds) == b.batchIds && Trim(a.followUp) == Trim(b.followUp)
  }

  // A second save refreshes a record but keeps what was stored.
  function Merged(existing: Tombstone, t: Tombstone): Tombstone {
    t.(events := existing.events, followUp := existing.followUp, results := existing.results,
        billingRunId := existing.billingRunId,
       sessionId := existing.sessionId, conversationId := existing.conversationId, ephemeral := t.ephemeral || existing.ephemeral)
  }

  // writeCompletedTombstone
  function Write(c: Completed, t: Tombstone): (Completed, Saved) {
    var key := ResultKey(t.fingerprint, t.batchIds, t.followUp);
    if key in c.records && !SameIdentity(c.records[key], t) then (c, IdentityMismatch)
    else if key in c.records && c.records[key].digest != t.digest then (c, Conflict)
    else
      var merged := if key in c.records then Merged(c.records[key], t) else t;
      var written := c.(records := c.records[key := merged]);
      if Trim(merged.followUp) != "" then (written, Written)
      else (written.(pointers := WritePointers(c.pointers, t.fingerprint, t.batchIds, |t.batchIds|)), Written)
  }

  // readCompletedTombstone: older releases stored a follow-up under the base key.
  function ReadRecord(c: Completed, fp: string, batch: seq<string>, followUp: string): Option<Tombstone> {
    var (key, base) := (ResultKey(fp, batch, followUp), ResultKey(fp, batch, ""));
    if key in c.records then Some(c.records[key])
    else if Trim(followUp) != "" && base in c.records then Some(c.records[base])
    else None
  }

  // removeExpiredCompletedTombstone
  function RemoveExpired(c: Completed, now: Time, ttl: nat, fp: string, batch: seq<string>,
      followUp: string): Completed {
    var key := ResultKey(fp, batch, followUp);
    if key !in c.records || !Expired(c.records[key], now, ttl) then c
    else
      Completed(c.records - {key},
                if Trim(c.records[key].followUp) != "" then c.pointers else RemovePointers(c.pointers, fp, batch, |batch|))
  }

  datatype Lookup = Hit(record: Tombstone) | Miss | DigestConflict | TwoSessions | Refused

  // matchCompletedTombstone
  function Match(c: Completed, now: Time, ttl: nat, fp: string, batch: seq<string>, results: seq<ToolResult>,
      followUp: string): (Completed, Lookup) {
    var read := ReadRecord(c, fp, batch, followUp);
    if read.None? then (c, Miss)
    else
      var t := read.value;
      if t.fingerprint != fp || Normalize(t.batchIds) != batch || Trim(t.followUp) != Trim(followUp) then (c, Miss)
      else if Expired(t, now, ttl) then (RemoveExpired(c, now, ttl, fp, batch, followUp), Miss)
      else
        var matched := ResultsForBatch(results, batch);
        if matched.None? then (c, Miss) else if t.digest != Digest(matched.value) then (c, DigestConflict) else (c, Hit(t))
  }

  datatype Cover = Cover(store: Completed, seen: set<string>, conflict: bool, found: seq<Tombstone>)

  // One submitted id of lookupCompletedCovering.
  function CoverId(v: Cover, now: Time, ttl: nat, fp: string, submitted: seq<string>, results: seq<ToolResult>,
      followUp: string, id: string): Cover {
    if (fp, id) !in v.store.pointers then v
    else
      var batch := Normalize(v.store.pointers[(fp, id)].batchIds);
      if v.store.pointers[(fp, id)].fingerprint != fp || !SubsetOf(batch, submitted) || Joined(batch) in v.seen then v
      else
        var (store, m) := Match(v.store, now, ttl, fp, batch, results, followUp);
        Cover(store, v.seen + {Joined(batch)}, v.conflict || m.DigestConflict?, v.found + if m.Hit? then [m.record] else [])
  }

  function CoverIds(c: Completed, now: Time, ttl: nat, fp: string, submitted: seq<string>, results: seq<ToolResult>,
      followUp: string, k: nat): Cover
    requires k <= |submitted|
  {
    if k == 0 then Cover(c, {}, false, [])
    else CoverId(CoverIds(c, now, ttl, fp, submitted, results, followUp, k - 1), now, ttl, fp, submitted, results,
        followUp, submitted[k - 1])
  }

  // The most recent of the records, the first one found among equals.
  function Latest(found: seq<Tombstone>): Tombstone
    requires found != []
  {
    if |found| == 1 then found[0]
    else
      var (before, t) := (Latest(found[..|found| - 1]), found[|found| - 1]);
      if t.updatedAt > before.updatedAt then t else before
  }

  function CoverAnswer(v: Cover): Lookup {
    if v.conflict then DigestConflict
    else if exists a, b :: a in v.found && b in v.found && a.sessionId != b.sessionId then TwoSessions
    else if v.found == [] then Miss
    else Hit(Latest(v.found))
  }

  // lookupCompletedTombstone
  function LookupResults(c: Completed, now: Time, ttl: nat, fp: string, results: seq<ToolResult>,
      followUp: string): (Completed, Lookup) {
    var batch := BatchIds(results);
    var (d, m) := Match(c, now, ttl, fp, batch, results, followUp);
    if m != Miss then (d, m)
    else
      var v := CoverIds(d, now, ttl, fp, batch, results, followUp, |batch|);
      (v.store, CoverAnswer(v))
  }

  predicate Decodes(t: Tombstone) {
    forall e :: e in t.events ==> e.kind != NoType
  }

  // LookupCompleted after pruning.
  function LookupCompleted(c: Completed, now: Time, ttl: nat, fp: string, results: seq<ToolResult>,
      followUp: string): (Completed, Lookup) {
    var canonical := CanonicalResults(results);
    if canonical.TooLarge? then (c, Refused)
    else if canonical.Unusable? || Trim(fp) == "" then (c, Miss)
    else
      var (d, r) := LookupResults(c, now, ttl, Trim(fp), canonical.results, followUp);
      if r.Hit? && !Decodes(r.record) then (d, Refused) else (d, r)
  }

  // pruneExpiredCompleted: `order` is the directory listing.
  function Prune(c: Completed, now: Time, ttl: nat, order: seq<string>): Completed {
    if order == [] then c
    else
      var (d, key) := (Prune(c, now, ttl, order[..|order| - 1]), order[|order| - 1]);
      if key !in d.records || !Expired(d.records[key], now, ttl) then d
      else
        var (t, batch) := (d.records[key], Normalize(d.records[key].batchIds));
        Completed(d.records - {key},
                  if Trim(t.followUp) == "" then RemovePointers(d.pointers, t.fingerprint, batch, |batch|) else d.pointers)
  }

  // LookupHistory
  function LookupHistory(c: Completed, now: Time, ttl: nat, fp: string, key: string): Lookup {
    var file := HistoryKey(fp, key);
    if file !in c.records then Miss
    else
      var t := c.records[file];
      if t.requestKey != key || t.fingerprint != fp then Refused
      else if Expired(t, now, ttl) then Miss
      else if !Decodes(t) then Refused
      else Hit(t)
  }

  // The snapshot part of SaveHistory: an unexpired one stays as it is.
  function WriteHistory(c: Completed, now: Time, ttl: nat, t: Tombstone): (Completed, bool, Saved) {
    var file := HistoryKey(t.fingerprint, t.requestKey);
    if file in c.records && !Expired(c.records[file], now, ttl) then
      (c, false, if c.records[file].requestKey != t.requestKey || c.records[file].fingerprint != t.fingerprint then IdentityMismatch else Written)
    else (c.(records := c.records[file := t]), true, Written)
  }

  // ---------------------------------------------------------------------
  // Retention
  // ---------------------------------------------------------------------

  // What a record keeps for as long as it exists.
  predicate SameContent(a: Tombstone, b: Tombstone) {
    && a.fingerprint == b.fingerprint && Normalize(a.batchIds) == Normalize(b.batchIds) && a.digest == b.digest
    && a.results == b.results && a.events == b.events && a.billingRunId == b.billingRunId
    && a.sessionId == b.sessionId && a.conversationId == b.conversationId && a.followUp == b.followUp
    && (a.ephemeral ==> b.ephemeral)
  }

  // Records change only by a refresh; they go, or are replaced, only once expired.
  ghost predicate Retains(c: Completed, d: Completed, now: Time, ttl: nat) {
    forall k :: k in c.records ==> RetainsRecord(c, d, now, ttl, k)
  }

  predicate RetainsRecord(c: Completed, d: Completed, now: Time, ttl: nat, k: string)
    requires k in c.records
  {
    || Expired(c.records[k], now, ttl)
    || (k in d.records && SameContent(c.records[k], d.records[k]) && c.records[k].updatedAt <= d.records[k].updatedAt)
  }

  // Nothing was stored in the future.
  predicate Past(c: Completed, now: Time) {
    forall k :: k in c.records ==> c.records[k].updatedAt <= now
  }

  lemma WriteRetains(c: Completed, t: Tombstone, now: Time, ttl: nat)
    requires Past(c, now) && t.updatedAt == now && IsBatch(t.batchIds)
    ensures var (d, s) := Write(c, t); Retains(c, d, now, ttl) && Past(d, now) && (s != Written ==> d == c)
  {
    hide Normalize, Trim, ResultKey, WritePointers;
    NormalizeIsIdempotent(t.batchIds);
  }

  // Removing expired records one after another.
  predicate OnlyExpiredGone(c: Completed, d: Completed, now: Time, ttl: nat) {
    && (forall k :: k in d.records ==> k in c.records && d.records[k] == c.records[k])
    && (forall k :: k in c.records && k !in d.records ==> Expired(c.records[k], now, ttl))
  }

  lemma OnlyExpiredGoneRetains(c: Completed, d: Completed, now: Time, ttl: nat)
    requires OnlyExpiredGone(c, d, now, ttl) && Past(c, now)
    ensures Retains(c, d, now, ttl) && Past(d, now)
  {
    hide Normalize;
  }

  lemma MatchKeeps(c: Completed, now: Time, ttl: nat, fp: string, batch: seq<string>, results: seq<ToolResult>,
      followUp: string)
    ensures OnlyExpiredGone(c, Match(c, now, ttl, fp, batch, results, followUp).0, now, ttl)
  {
    hide Normalize, Trim, ResultKey, RemovePointers, ResultsForBatch, Digest;
  }

  lemma {:induction false} CoverKeeps(c: Completed, now: Time, ttl: nat, fp: string, submitted: seq<string>,
      results: seq<ToolResult>, followUp: string, k: nat)
    requires k <= |submitted|
    ensures OnlyExpiredGone(c, CoverIds(c, now, ttl, fp, submitted, results, followUp, k).store, now, ttl)
  {
    hide Normalize, Match, Joined;
    if k > 0 {
      CoverKeeps(c, now, ttl, fp, submitted, results, followUp, k - 1);
      var v := CoverIds(c, now, ttl, fp, submitted, results, followUp, k - 1);
      if (fp, submitted[k - 1]) in v.store.pointers {
        MatchKeeps(v.store, now, ttl, fp, Normalize(v.store.pointers[(fp, submitted[k - 1])].batchIds), results, followUp);
      }
    }
  }

  lemma LookupKeeps(c: Completed, now: Time, ttl: nat, fp: string, results: seq<ToolResult>, followUp: string)
    ensures OnlyExpiredGone(c, LookupCompleted(c, now, ttl, fp, results, followUp).0, now, ttl)
  {
    hide Match, CoverIds, CanonicalResults, Trim, BatchIds, CoverAnswer;
    var canonical := CanonicalResults(results);
    if canonical.Results? {
      var batch := BatchIds(canonical.results);
      MatchKeeps(c, now, ttl, Trim(fp), batch, canonical.results, followUp);
      var d := Match(c, now, ttl, Trim(fp), batch, canonical.results, followUp).0;
      CoverKeeps(d, now, ttl, Trim(fp), batch, canonical.results, followUp, |batch|);
    }
  }

  lemma {:induction false} PruneKeeps(c: Completed, now: Time, ttl: nat, order: seq<string>)
    ensures OnlyExpiredGone(c, Prune(c, now, ttl, order), now, ttl)
  {
    hide Normalize, Trim, RemovePointers, Expired;
    if order != [] {
      PruneKeeps(c, now, ttl, order[..|order| - 1]);
    }
  }

  lemma WriteHistoryRetains(c: Completed, t: Tombstone, now: Time, ttl: nat)
    requires Past(c, now) && t.updatedAt == now
    ensures var (d, wrote, s) := WriteHistory(c, now, ttl, t);
            Retains(c, d, now, ttl) && Past(d, now) && (!wrote ==> d == c)
  {
    hide HistoryKey, Normalize;
  }

  // ---------------------------------------------------------------------
  // What lookups return
  // ---------------------------------------------------------------------

  // A stored, unexpired record of the request's account and follow-up whose whole
  // batch was submitted with the stored answers.
  ghost predicate Fits(c: Completed, now: Time, ttl: nat, fp: string, results: seq<ToolResult>, followUp: string,
      t: Tombstone) {
    && (exists k :: k in c.records && c.records[k] == t)
    && t.fingerprint == fp && Trim(t.followUp) == Trim(followUp) && !Expired(t, now, ttl)
    && SubsetOf(Normalize(t.batchIds), BatchIds(results))
    && ResultsForBatch(results, Normalize(t.batchIds)).Some?
    && t.digest == Digest(ResultsForBatch(results, Normalize(t.batchIds)).value)
  }

  lemma MatchFits(c: Completed, now: Time, ttl: nat, fp: string, batch: seq<string>, results: seq<ToolResult>,
      followUp: string)
    requires batch == [] || SubsetOf(batch, BatchIds(results))
    ensures var m := Match(c, now, ttl, fp, batch, results, followUp).1;
            m.Hit? ==> Fits(c, now, ttl, fp, results, followUp, m.record)
  {
    hide Normalize, Trim, ResultKey, RemovePointers, Digest, Expired;
  }

  lemma FitsEarlier(c: Completed, d: Completed, now: Time, ttl: nat, fp: string, results: seq<ToolResult>,
      followUp: string, t: Tombstone)
    requires OnlyExpiredGone(c, d, now, ttl) && Fits(d, now, ttl, fp, results, followUp, t)
    ensures Fits(c, now, ttl, fp, results, followUp, t)
  {
    hide Normalize, Trim, Digest, Expired;
    var k :| k in d.records && d.records[k] == t;
    assert c.records[k] == t;
  }

  lemma {:induction false} CoverFits(c: Completed, now: Time, ttl: nat, fp: string, results: seq<ToolResult>,
      followUp: string, k: nat)
    requires k <= |BatchIds(results)|
    ensures var v := CoverIds(c, now, ttl, fp, BatchIds(results), results, followUp, k);
            forall t :: t in v.found ==> Fits(c, now, ttl, fp, results, followUp, t)
  {
    hide Normalize, Match, Joined, Fits, BatchIds;
    var submitted := BatchIds(results);
    if k > 0 {
      CoverFits(c, now, ttl, fp, results, followUp, k - 1);
      var v := CoverIds(c, now, ttl, fp, submitted, results, followUp, k - 1);
      CoverKeeps(c, now, ttl, fp, submitted, results, followUp, k - 1);
      if (fp, submitted[k - 1]) in v.store.pointers {
        var batch := Normalize(v.store.pointers[(fp, submitted[k - 1])].batchIds);
        if SubsetOf(batch, submitted) {
          MatchFits(v.store, now, ttl, fp, batch, results, followUp);
          var m := Match(v.store, now, ttl, fp, batch, results, followUp).1;
          if m.Hit? {
            FitsEarlier(c, v.store, now, ttl, fp, results, followUp, m.record);
          }
        }
      }
    }
  }

  lemma {:induction false} LatestIsFound(found: seq<Tombstone>)
    requires found != []
    ensures Latest(found) in found && forall t :: t in found ==> t.updatedAt <= Latest(found).updatedAt
  {
    if |found| > 1 {
      LatestIsFound(found[..|found| - 1]);
      assert found == found[..|found| - 1] + [found[|found| - 1]];
    }
  }

  // Lookups return only fitting records.  In particular a batch {a, b} never finds
  // the follow-up "b" of {a} although both name one file.
  lemma LookupFits(c: Completed, now: Time, ttl: nat, fp: string, results: seq<ToolResult>, followUp: string)
    ensures var r := LookupCompleted(c, now, ttl, fp, results, followUp).1;
            r.Hit? ==>
              && CanonicalResults(results).Results?
              && Fits(c, now, ttl, Trim(fp), CanonicalResults(results).results, followUp, r.record)
  {
    hide Match, CoverIds, CanonicalResults, Trim, BatchIds, Fits, Latest, Normalize;
    var canonical := CanonicalResults(results);
    if canonical.Results? && Trim(fp) != "" {
      var (batch, given) := (BatchIds(canonical.results), canonical.results);
      BatchFitsItself(given);
      MatchFits(c, now, ttl, Trim(fp), batch, given, followUp);
      MatchKeeps(c, now, ttl, Trim(fp), batch, given, followUp);
      var d := Match(c, now, ttl, Trim(fp), batch, given, followUp).0;
      CoverFits(d, now, ttl, Trim(fp), given, followUp, |batch|);
      var v := CoverIds(d, now, ttl, Trim(fp), batch, given, followUp, |batch|);
      if v.found != [] {
        LatestIsFound(v.found);
        FitsEarlier(c, d, now, ttl, Trim(fp), given, followUp, Latest(v.found));
      }
    }
  }

  lemma BatchFitsItself(results: seq<ToolResult>)
    ensures BatchIds(results) == [] || SubsetOf(BatchIds(results), BatchIds(results))
  {
    hide BatchIds;
  }

  // A snapshot just saved is found again by the same results and follow-up, with
  // the content that was stored first.
  lemma SavedIsFound(c: Completed, t: Tombstone, now: Time, ttl: nat, results: seq<ToolResult>)
    requires IsBatch(t.batchIds) && t.batchIds == BatchIds(results) && t.updatedAt == now
    requires ResultsForBatch(results, t.batchIds) == Some(results) && t.digest == Digest(results)
    ensures var (d, s) := Write(c, t);
            var m := Match(d, now, ttl, t.fingerprint, t.batchIds, results, t.followUp).1;
            var key := ResultKey(t.fingerprint, t.batchIds, t.followUp);
            && (s == Written ==> m == Hit(d.records[key]) && d.records[key] == if key in c.records then Merged(c.records[key], t) else t)
            && (s == Conflict ==> key in c.records && (Expired(c.records[key], now, ttl) || m == DigestConflict))
  {
    hide Normalize, Trim, ResultKey, RemovePointers, WritePointers, ResultsForBatch, Digest;
    NormalizeIsIdempotent(t.batchIds);
  }

  // LookupHistory answers with the one unexpired snapshot of the account and key.
  lemma HistoryFits(c: Completed, now: Time, ttl: nat, fp: string, key: string)
    ensures var r := LookupHistory(c, now, ttl, fp, key);
            r.Hit? ==> r.record.fingerprint == fp && r.record.requestKey == key && !Expired(r.record, now, ttl)
    ensures forall t: Tombstone :: t.fingerprint == fp && t.requestKey == key && t.updatedAt == now && Decodes(t) ==>
              var (d, wrote, s) := WriteHistory(c, now, ttl, t);
              && (wrote ==> LookupHistory(d, now, ttl, fp, key) == Hit(t))
              && (!wrote && s == Written ==> LookupHistory(d, now, ttl, fp, key) != Miss)
  {
    hide HistoryKey;
  }

  // ---------------------------------------------------------------------
  // Canonical results
  // ---------------------------------------------------------------------

  predicate Ordered(results: seq<ToolResult>) {
    forall i, j :: 0 <= i < j < |results| ==> Less(results[i].toolCallId, results[j].toolCallId)
  }

  predicate Fresh(results: seq<ToolResult>, id: string) {
    forall r :: r in results ==> r.toolCallId != id
  }

  predicate DistinctIds(results: seq<ToolResult>) {
    forall i, j :: 0 <= i < j < |results| ==> results[i].toolCallId != results[j].toolCallId
  }

  lemma {:induction false} InsertResultOrders(results: seq<ToolResult>, r: ToolResult)
    requires Ordered(results) && Fresh(results, r.toolCallId)
    ensures Ordered(InsertResult(results, r)) && multiset(InsertResult(results, r)) == multiset(results) + multiset{r}
  {
    if results == [] {
    } else if Less(results[|results| - 1].toolCallId, r.toolCallId) {
      forall i | 0 <= i < |results|
        ensures Less(results[i].toolCallId, r.toolCallId)
      {
        if i < |results| - 1 {
          LessIsTransitive(results[i].toolCallId, results[|results| - 1].toolCallId, r.toolCallId);
        }
      }
    } else {
      var (n, last) := (|results| - 1, results[|results| - 1]);
      assert results == results[..n] + [last];
      InsertResultOrders(results[..n], r);
      assert last in results;
      LessIsTotal(r.toolCallId, last.toolCallId);
      AppendsLargest(results[..n], r, last, InsertResult(results[..n], r));
    }
  }

  lemma AppendsLargest(front: seq<ToolResult>, r: ToolResult, last: ToolResult, inserted: seq<ToolResult>)
    requires Ordered(inserted) && multiset(inserted) == multiset(front) + multiset{r}
    requires Ordered(front + [last]) && Less(r.toolCallId, last.toolCallId)
    ensures Ordered(inserted + [last])
  {
    forall i | 0 <= i < |inserted|
      ensures Less(inserted[i].toolCallId, last.toolCallId)
    {
      var x := inserted[i];
      assert x in multiset(inserted);
      if x != r {
        assert x in multiset(front);
        var k :| 0 <= k < |front| && front[k] == x;
        assert (front + [last])[k] == x && (front + [last])[|front|] == last;
      }
    }
  }

  lemma {:induction false} SortResultsOrders(results: seq<ToolResult>)
    requires DistinctIds(results)
    ensures Ordered(SortResults(results)) && multiset(SortResults(results)) == multiset(results)
  {
    if results != [] {
      var (n, last) := (|results| - 1, results[|results| - 1]);
      assert results == results[..n] + [last];
      SortResultsOrders(results[..n]);
      forall r | r in SortResults(results[..n])
        ensures r.toolCallId != last.toolCallId
      {
        assert r in multiset(SortResults(results[..n]));
        var k :| 0 <= k < n && results[k] == r;
      }
      InsertResultOrders(SortResults(results[..n]), last);
    }
  }

  lemma SameLargest(a: seq<ToolResult>, b: seq<ToolResult>)
    requires Ordered(a) && Ordered(b) && multiset(a) == multiset(b) && a != [] && b != []
    ensures a[|a| - 1] == b[|b| - 1]
  {
    var (x, y) := (a[|a| - 1], b[|b| - 1]);
    assert x in multiset(b) && y in multiset(a);
    var i :| 0 <= i < |b| && b[i] == x;
    var j :| 0 <= j < |a| && a[j] == y;
    if x != y {
      LessIsStrict(x.toolCallId, y.toolCallId);
    }
  }

  lemma WithoutLast(a: seq<ToolResult>)
    requires a != []
    ensures multiset(a[..|a| - 1]) == multiset(a) - multiset{a[|a| - 1]}
    ensures Ordered(a) ==> Ordered(a[..|a| - 1])
  {
    assert a == a[..|a| - 1] + [a[|a| - 1]];
  }

  lemma SameSize(a: seq<ToolResult>, b: seq<ToolResult>)
    requires multiset(a) == multiset(b)
    ensures |a| == |b|
  {
    assert |multiset(a)| == |a| && |multiset(b)| == |b|;
  }

  // Results in id order are determined by which results they are.
  lemma {:induction false} OrderedIsCanonical(a: seq<ToolResult>, b: seq<ToolResult>)
    requires Ordered(a) && Ordered(b) && multiset(a) == multiset(b)
    ensures a == b
  {
    hide Ordered;
    SameSize(a, b);
    if a != [] {
      SameLargest(a, b);
      WithoutLast(a);
      WithoutLast(b);
      OrderedIsCanonical(a[..|a| - 1], b[..|b| - 1]);
      assert a == a[..|a| - 1] + [a[|a| - 1]] && b == b[..|b| - 1] + [b[|b| - 1]];
    }
  }

  lemma {:induction false} OrderedIsSorted(results: seq<ToolResult>)
    requires Ordered(results)
    ensures SortResults(results) == results && DistinctIds(results)
  {
    forall i, j | 0 <= i < j < |results|
      ensures results[i].toolCallId != results[j].toolCallId
    {
      LessIsStrict(results[i].toolCallId, results[j].toolCallId);
    }
    SortResultsOrders(results);
    OrderedIsCanonical(SortResults(results), results);
  }

  lemma {:induction false} TrimmingIsDistinct(results: seq<ToolResult>)
    requires Trimming(results).Results?
    ensures var rs := Trimming(results).results;
            && DistinctIds(rs) && |rs| == |results|
            && (forall i :: 0 <= i < |rs| ==> rs[i] == results[i].(toolCallId := Trim(results[i].toolCallId)) && rs[i].toolCallId != "")
  {
    hide Trim, ResultBytes;
    if results != [] {
      var n := |results| - 1;
      TrimmingIsDistinct(results[..n]);
      var before := Trimming(results[..n]).results;
      forall i | 0 <= i < n
        ensures before[i].toolCallId != Trim(results[n].toolCallId)
      {
        assert ResultIds(before)[i] in ResultIds(before);
      }
    }
  }

  lemma CanonicalIsOrdered(results: seq<ToolResult>)
    requires CanonicalResults(results).Results?
    ensures var rs := CanonicalResults(results).results;
            && Ordered(rs) && rs != []
            && multiset(rs) == multiset(Trimming(results).results)
            && forall r :: r in rs ==> r.toolCallId != "" && Trimmed(r.toolCallId)
  {
    hide Trimming, Trim, Ordered;
    var trimmed := Trimming(results).results;
    TrimmingIsDistinct(results);
    SortResultsOrders(trimmed);
    var rs := CanonicalResults(results).results;
    assert |multiset(rs)| == |rs| && |multiset(trimmed)| == |trimmed|;
    forall r | r in rs
      ensures r.toolCallId != "" && Trimmed(r.toolCallId)
    {
      assert r in multiset(trimmed);
      var k :| 0 <= k < |trimmed| && trimmed[k] == r;
      TrimStrips(results[k].toolCallId);
    }
  }

  lemma {:induction false} SelectsAll(results: seq<ToolResult>, batch: seq<string>)
    requires forall r :: r in results ==> r.toolCallId in batch
    ensures Selected(results, batch) == results
  {
    if results != [] {
      assert results == results[..|results| - 1] + [results[|results| - 1]];
      SelectsAll(results[..|results| - 1], batch);
    }
  }

  // Canonical results are what their own batch selects.
  lemma CanonicalSelectsItself(results: seq<ToolResult>)
    requires Ordered(results) && results != [] && forall r :: r in results ==> r.toolCallId != "" && Trimmed(r.toolCallId)
    ensures BatchIds(results) != [] && ResultsForBatch(results, BatchIds(results)) == Some(results)
  {
    hide Normalize, Trim, Selected, SortResults;
    var ids := ResultIds(results);
    NormalizeNames(ids);
    forall id | id in ids
      ensures id in BatchIds(results)
    {
      var k :| 0 <= k < |ids| && ids[k] == id;
      assert results[k] in results;
      TrimStrips(id);
      assert Trim(id) == id && id in Named(ids);
      assert id in Elements(BatchIds(results));
    }
    forall id | id in BatchIds(results)
      ensures id in ids
    {
      assert id in Elements(BatchIds(results)) && id in Named(ids);
      var x :| x in ids && Trim(x) == id;
      var k :| 0 <= k < |ids| && ids[k] == x;
      assert results[k] in results;
      TrimStrips(x);
    }
    assert ids[0] in BatchIds(results);
    forall r | r in results
      ensures r.toolCallId in BatchIds(results)
    {
      var k :| 0 <= k < |results| && results[k] == r;
      assert ids[k] in ids;
    }
    SelectsAll(results, BatchIds(results));
    OrderedIsSorted(results);
  }

  // newCompletedTombstone, once events are persisted and results are canonical.
  function NewTombstone(segment: string, fp: string, billing: string, session: string, conversation: string,
      canonical: seq<ToolResult>,
                        events: seq<Event>, hasPending: bool, ephemeral: bool, followUp: string, now: Time): Tombstone {
    Tombstone("", segment, fp, BatchIds(canonical), Digest(canonical), canonical, events, billing, session, conversation,
              hasPending, Trim(followUp), ephemeral, now)
  }

  // Save, then look up with the same results in any order: the snapshot that the
  // first save stored.
  lemma SaveThenLookup(c: Completed, t: Tombstone, now: Time, ttl: nat, results: seq<ToolResult>,
      again: seq<ToolResult>)
    requires CanonicalResults(results).Results? && CanonicalResults(again).Results?
    requires multiset(Trimming(results).results) == multiset(Trimming(again).results)
    requires var rs := CanonicalResults(results).results; t.batchIds == BatchIds(rs) && t.digest == Digest(rs)
    requires t.updatedAt == now && Trim(t.fingerprint) == t.fingerprint != ""
    ensures var (d, s) := Write(c, t);
            var key := ResultKey(t.fingerprint, t.batchIds, t.followUp);
            s == Written ==>
              && key in d.records && SameContent(if key in c.records then c.records[key] else t, d.records[key])
              && (Decodes(d.records[key]) ==> LookupCompleted(d, now, ttl, t.fingerprint, again, t.followUp).1 == Hit(d.records[key]))
  {
    hide Normalize, Trim, ResultKey, RemovePointers, WritePointers, ResultsForBatch, Digest, CanonicalResults,
        Trimming, Match, CoverIds, BatchIds;
    var rs := CanonicalResults(results).results;
    CanonicalIsOrdered(results);
    CanonicalIsOrdered(again);
    OrderedIsCanonical(rs, CanonicalResults(again).results);
    CanonicalSelectsItself(rs);
    BatchIdsAreBatch(rs);
    SavedIsFound(c, t, now, ttl, rs);
    NormalizeIsIdempotent(t.batchIds);
  }

  lemma BatchIdsAreBatch(results: seq<ToolResult>)
    ensures IsBatch(BatchIds(results))
  {}
}
