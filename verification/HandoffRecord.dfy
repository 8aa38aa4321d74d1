/** Records of the handoff ledger and their well-formedness (session_peer_core/handoff.py). */
module HandoffRecord {
  import opened Text
  import CodexHome

  const MAX_SAFE_INTEGER: int := 9007199254740991
  const MAX_CLOCK_NS: int := 9223372036854775807
  const DAY_NS: int := 86400000000000
  const RETENTION_NS: int := 2592000000000000
  const MAX_WAITS: int := 64
  const MAX_MESSAGE_CHARS: int := 1000000

  datatype Phase = Prepared | Attempted | Terminal | Tombstone | Quarantined
  datatype Submission = NotAttempted | Submitted | Refused | Unknown
  datatype Goal = Delivered | Acknowledged
  datatype WaitStatus = Pending | Satisfied | TimedOutUnknown | Stopped | Unsupported | Failed
  datatype WaitReason =
    | InsufficientBudget | DeadlineBeforeEffect | EvidenceUnsupported | EvidenceFailed
    | HistoryUnavailable | StoppedByOperator | InvalidHandoff
  datatype Assurance = TokenPossession | OperatorConfirmed

  datatype Wait = Wait(
    goal: Goal, status: WaitStatus, operationId: string,
    deadlineAtUtcMs: int, deadlineNs: int, clockEpoch: Option<string>, reason: Option<WaitReason>)

  // The digest of a capability: SHA-256 is taken to be injective.
  datatype CapabilityHash = CapabilityHash(ledgerEpoch: string, correlation: string, generation: string, token: string)

  datatype Capability = Capability(hash: CapabilityHash, clockEpoch: string, expiresNs: int, revoked: bool)

  datatype Ack = Ack(
    assurance: Assurance, receivedAtUtcMs: int, late: bool,
    receiptId: Option<string>, classifiedClockEpoch: Option<string>)

  datatype PendingReceipt = PendingReceipt(receiptId: string, clockEpoch: string, receivedNs: int, receivedAtUtcMs: int)

  datatype Binding = Binding(
    agent: string, destination: seq<string>, target: string, home: Option<string>, payloadDigest: string)

  // bytes is the length of the encoded JSON object.
  datatype NativeContext = NativeContext(root: string, resolution: CodexHome.Resolution, bytes: nat)

  datatype FailureReason = NativeOutcomeUnknown | NativeSubmissionRefused

  // target is the canonical target named by the native reply: the decimal PID
  // of a Claude session, or the lower-case thread of a Codex queue.
  datatype Native =
    | NativeFailure(failure: FailureReason)
    | NativeSuccess(target: string, chars: int, home: Option<string>,
                    resolution: Option<CodexHome.Resolution>, queueId: Option<string>, bytes: nat)

  // The fields of a record that no transaction ever changes.
  datatype Intent = Intent(
    id: string, binding: Binding, generation: Option<string>, nativeContext: Option<NativeContext>,
    createdNs: int, createdUtcMs: int, historyBoot: Option<string>)

  datatype Record = Record(
    intent: Intent, phase: Phase, submission: Submission, native: Option<Native>,
    waits: seq<Wait>, ack: Option<Ack>, capability: Option<Capability>, pendingReceipt: Option<PendingReceipt>,
    observe: bool, ackRequested: bool)

  predicate ClockNs(n: int) { 0 <= n <= MAX_CLOCK_NS }
  predicate UtcMs(n: int) { 0 <= n <= MAX_SAFE_INTEGER }

  /* ----- the check every transaction makes on every record ----- */

  predicate ValidResolution(r: CodexHome.Resolution, root: string) {
    && (r.status == CodexHome.Explicit || r.status == CodexHome.Selected)
    && r.selected == Some(root)
    && r.reason in {CodexHome.ExplicitInactiveOptIn, CodexHome.ExplicitLiveWriter, CodexHome.SingleStableLiveWriter}
    && 1 <= |r.candidates| <= 32
    && (forall c :: c in r.candidates ==> IsIdentifier(c.codexHome, 4096))
    && exists k :: 0 <= k < |r.candidates| && NamesSavedRoot(r.candidates[k], root)
         && forall m :: 0 <= m < |r.candidates| && m != k ==> !NamesSavedRoot(r.candidates[m], root)
  }

  predicate NamesSavedRoot(c: CodexHome.Candidate, root: string) {
    c.codexHome == root && c.savedThread == Some(true)
  }

  predicate ValidBinding(b: Binding) {
    && IsIdentifier(b.agent, 128)
    && IsIdentifier(b.target, 4096)
    && 1 <= |b.destination| <= 32
    && (forall i :: 0 <= i < |b.destination| ==> IsIdentifier(b.destination[i], 256))
    && (b.home.Some? ==> IsIdentifier(b.home.value, 4096))
    && IsDigest(b.payloadDigest)
  }

  predicate ValidContext(c: NativeContext, b: Binding) {
    b.agent == "codex" && Some(c.root) == b.home && c.bytes <= 4096 && ValidResolution(c.resolution, c.root)
  }

  predicate ValidIntent(i: Intent) {
    && IsUuid4(i.id)
    && ClockNs(i.createdNs) && UtcMs(i.createdUtcMs)
    && (i.historyBoot.Some? ==> IsDigest(i.historyBoot.value))
    && (i.generation.Some? ==> IsIdentifier(i.generation.value, 256))
    && ValidBinding(i.binding)
    && (i.nativeContext.Some? ==> ValidContext(i.nativeContext.value, i.binding))
  }

  predicate ValidWait(w: Wait) {
    && IsUuid4(w.operationId)
    && ClockNs(w.deadlineNs) && UtcMs(w.deadlineAtUtcMs)
    && (w.clockEpoch.Some? ==> IsUuid4(w.clockEpoch.value))
    && (w.status == Stopped ==> w.reason == Some(StoppedByOperator))
  }

  predicate ValidCapability(c: Capability) {
    ClockNs(c.expiresNs) && IsUuid4(c.clockEpoch)
  }

  predicate ValidAck(a: Ack) {
    && UtcMs(a.receivedAtUtcMs)
    && match a.assurance
       case TokenPossession =>
         a.receiptId.Some? && IsUuid4(a.receiptId.value)
         && a.classifiedClockEpoch.Some? && IsUuid4(a.classifiedClockEpoch.value)
       case OperatorConfirmed => a.receiptId.None? && a.classifiedClockEpoch.None?
  }

  predicate ValidPending(p: PendingReceipt) {
    IsUuid4(p.receiptId) && IsUuid4(p.clockEpoch) && ClockNs(p.receivedNs) && UtcMs(p.receivedAtUtcMs)
  }

  // A successful native reply describes the very intent it is stored under.
  predicate ValidSuccess(n: Native, i: Intent)
    requires n.NativeSuccess?
  {
    && |i.binding.destination| == 1
    && n.target == i.binding.target
    && 0 <= n.chars <= MAX_MESSAGE_CHARS
    && (if i.binding.agent == "codex" then
          && n.home.Some? && n.home == i.binding.home
          && n.resolution.Some? && ValidResolution(n.resolution.value, n.home.value)
          && (n.queueId.Some? ==> IsIdentifier(n.queueId.value, 128))
          && (i.nativeContext.Some? ==> n.resolution.value == i.nativeContext.value.resolution)
        else
          i.binding.agent == "claude" && n.home.None? && n.resolution.None? && n.queueId.None?)
  }

  predicate ValidNative(n: Native, s: Submission, i: Intent) {
    match n
    case NativeSuccess(_, _, _, _, _, bytes) => s == Submitted && bytes <= 8192 && ValidSuccess(n, i)
    case NativeFailure(reason) =>
      (s == Unknown && reason == NativeOutcomeUnknown) || (s == Refused && reason == NativeSubmissionRefused)
  }

  // Which facts may accompany a phase.
  predicate PhaseRules(r: Record) {
    && (r.phase == Terminal ==> r.submission != NotAttempted)
    && (r.phase == Prepared ==> r.submission == NotAttempted && r.native.None? && r.ack.None? && r.pendingReceipt.None?)
    && (r.phase == Attempted ==> r.submission == Unknown && r.native.None? && r.ack.None?)
    && (r.phase in {Tombstone, Quarantined} ==>
          r.submission == Unknown && r.native.None? && r.ack.None? && r.pendingReceipt.None?)
    && (r.phase == Tombstone ==> r.capability.None?)
    && (r.submission == Submitted ==> r.phase == Terminal && r.native.Some?)
  }

  predicate ValidRecord(r: Record) {
    && ValidIntent(r.intent)
    && |r.waits| <= MAX_WAITS
    && (forall i :: 0 <= i < |r.waits| ==> ValidWait(r.waits[i]))
    && (r.capability.Some? ==> ValidCapability(r.capability.value))
    && (r.ack.Some? ==> ValidAck(r.ack.value) && r.intent.generation.Some? && r.submission == Submitted)
    && (r.pendingReceipt.Some? ==> ValidPending(r.pendingReceipt.value) && r.intent.generation.Some? && r.capability.Some?)
    && PhaseRules(r)
    && (r.native.Some? ==> ValidNative(r.native.value, r.submission, r.intent))
  }

  /* ----- the stronger invariant the transactions really keep ----- */

  predicate HasSatisfied(waits: seq<Wait>) {
    exists i :: 0 <= i < |waits| && waits[i].status == Satisfied
  }

  predicate Strong(r: Record) {
    && ValidRecord(r)
    && r.intent.createdNs <= MAX_CLOCK_NS - DAY_NS
    && (r.capability.Some? ==> r.intent.generation.Some? && r.capability.value.expiresNs == r.intent.createdNs + DAY_NS)
    && (forall i :: 0 <= i < |r.waits| && r.waits[i].status in {Pending, Satisfied} ==> r.waits[i].goal == Acknowledged)
    && (HasSatisfied(r.waits) ==> r.ack.Some? || r.phase == Quarantined)
  }

  // The check alone admits records the transactions never write: a pending
  // wait for delivery, which the next poll would satisfy without evidence.
  lemma ValidIsWeakerThanStrong(r: Record, w: Wait)
    requires Strong(r) && |r.waits| < MAX_WAITS
    requires ValidWait(w) && w.status == Pending && w.goal == Delivered
    ensures var odd := r.(waits := r.waits + [w]); ValidRecord(odd) && !Strong(odd)
  {
    var odd := r.(waits := r.waits + [w]);
    assert odd.waits[|r.waits|] == w;
  }
}
