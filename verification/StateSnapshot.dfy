// The session record of state.go and when it expires.
module StateSnapshots {
  import opened Events
  import opened ToolIds

  // Nanoseconds on a clock that never runs backwards; 0 is the zero time.
  type Time = nat

  const ZERO_TIME: Time := 0
  const COMPLETED_TTL: nat := 5 * 60 * 1_000_000_000

  datatype PendingTool = PendingTool(
    messageId: nat, execId: string, toolCallId: string, upstreamToolCallId: string, name: string, arguments: string)

  datatype Snapshot = Snapshot(
    runtimeProfile: string,
    sessionId: string,
    conversationId: string,
    fingerprint: string,
    toolCatalogDigest: string,
    toolCatalog: seq<string>,
    billingRunId: string,
    usageCarry: seq<Event>,
    generation: nat,
    token: string,
    checkpoint: string,
    blobs: map<string, string>,
    pending: seq<PendingTool>,
    batchIds: seq<string>,
    followUp: string,
    ephemeral: bool,
    completedAt: Time,
    updatedAt: Time)

  // stateExpired
  predicate StateExpired(s: Snapshot, now: Time, ttl: nat) {
    if s.updatedAt == ZERO_TIME then false
    else if s.ephemeral && s.pending == [] then now - (if s.completedAt == ZERO_TIME then s.updatedAt else s.completedAt) > COMPLETED_TTL
    else ttl > 0 && now - s.updatedAt > ttl
  }

  function ToolCallIds(pending: seq<PendingTool>): seq<string> {
    seq(|pending|, i requires 0 <= i < |pending| => pending[i].toolCallId)
  }

  // pendingToolIDs.  Its callers either have validated that the ids are distinct
  // and not blank, or normalize the result.
  function PendingToolIds(pending: seq<PendingTool>): seq<string> {
    Normalize(ToolCallIds(pending))
  }

  // The batch a session waits for: the recorded one, or for older records the
  // pending ids.
  function Batch(s: Snapshot): seq<string> {
    Normalize(RawBatch(s))
  }

  function RawBatch(s: Snapshot): seq<string> {
    if s.batchIds == [] then PendingToolIds(s.pending) else s.batchIds
  }

  predicate Pends(s: Snapshot, fingerprint: string, batch: seq<string>) {
    s.fingerprint == fingerprint && s.pending != [] && Batch(s) == batch
  }
}
