/** What one locked transaction does to one record (session_peer_core/handoff.py, handoff_remote.py). */
module HandoffSteps {
  import opened Text
  import opened HandoffRecord

  // UncaughtStopIteration is not a refusal: a wait that is looked for and not
  // there ends the transaction, unsaved, with an exception nobody handles.
  datatype HandoffError =
    | IdUnknown | BindingConflict | AlreadyAttempted | NativeContextChanged
    | InvalidReceipt | AuthorityUnavailable | AuthorityExpired | ReceiptConflict
    | SubmissionUnconfirmed | OrderUnprovable | WaitCapacity | UncaughtStopIteration | DeadlinePassed
    | LedgerCorrupt | LedgerCapacity | RecordCapacity

  // tick(k) is the k-th reading of the shared monotonic clock in one
  // transaction; tick(0) is the one retention uses.
  datatype Clock = Clock(boot: Option<string>, tick: nat -> int, utcMs: int)

  datatype Frame = Frame(ledgerEpoch: string, correlationId: string, generation: string, receiptId: string, token: string)

  datatype WaitRequest = WaitRequest(
    goal: Goal, operationId: string, deadlineNs: int, deadlineAtUtcMs: int, clockEpoch: Option<string>)

  datatype Reply =
    | Done
    | Minted(token: string, clockEpoch: string)
    | Receipt(duplicate: bool, pending: bool)

  type Outcome = Result<(Record, Reply), HandoffError>

  datatype Operation =
    | Read
    | Resume(binding: Binding, generation: Option<string>, nativeContext: Option<NativeContext>)
    | Mint(frame: Frame, collector: string)
    | Receive(frame: Frame, collector: string, classify: bool)
    | Revoke
    | Attempt(observe: bool, ackRequested: bool, cutoffNs: int, wait: Option<WaitRequest>)
    | Commit(submission: Submission, native: Native, remote: bool, ownWait: Option<string>, interrupted: bool)
    | Refuse(observe: bool, ackRequested: bool, reason: WaitReason, wait: Option<WaitRequest>)
    | StartWait(request: WaitRequest, budgeted: bool, verified: Option<string>)
    | PollWait(operation: string, verified: Option<string>, nowNs: int, deadlineNs: int)
    | StopWait(operation: string)
    | Confirm(frame: Frame)

  /* ----- retention, quarantine and collector start ----- */

  predicate Expired(r: Record, boot: Option<string>, now: int) {
    boot.Some? && r.phase != Tombstone && r.intent.historyBoot == boot && now >= r.intent.createdNs + RETENTION_NS
  }

  function Retained(r: Record, boot: Option<string>, now: int): Record {
    if Expired(r, boot, now) then
      r.(phase := Tombstone, submission := Unknown, native := None, waits := [], ack := None,
         capability := None, pendingReceipt := None, observe := false, ackRequested := false)
    else r
  }

  function Revoked(c: Option<Capability>): Option<Capability> {
    if c.Some? then Some(c.value.(revoked := true)) else None
  }

  function FailPending(w: Wait): Wait {
    if w.status == Pending then w.(status := Failed, reason := Some(HistoryUnavailable)) else w
  }

  function AfterQuarantine(r: Record): Record {
    r.(phase := Quarantined, submission := Unknown, native := None, ack := None, pendingReceipt := None,
       capability := Revoked(r.capability),
       waits := seq(|r.waits|, i requires 0 <= i < |r.waits| => FailPending(r.waits[i])))
  }

  function AfterCollectorStart(r: Record): Record {
    if r.capability.Some? && r.ack.None? then r.(capability := Revoked(r.capability)) else r
  }

  /* ----- waits ----- */

  predicate Supported(r: Record, goal: Goal) {
    goal == Acknowledged && r.intent.generation.Some? && r.capability.Some? && !r.capability.value.revoked
  }

  function AddWait(r: Record, q: WaitRequest, initial: Option<WaitStatus>, reason: Option<WaitReason>): Result<Record, HandoffError> {
    if |r.waits| >= MAX_WAITS then Err(WaitCapacity)
    else
      var supported := Supported(r, q.goal);
      var status := if initial.Some? then initial.value else if supported then Pending else Unsupported;
      var why := if reason.Some? then reason else if !supported then Some(EvidenceUnsupported) else None;
      Ok(r.(waits := r.waits + [Wait(q.goal, status, q.operationId, q.deadlineAtUtcMs, q.deadlineNs, q.clockEpoch, why)]))
  }

  // The first wait with the given operation ID.
  function FindWait(waits: seq<Wait>, operation: string): (k: Option<nat>)
    ensures k.Some? ==> k.value < |waits| && waits[k.value].operationId == operation
    ensures k.Some? ==> forall i :: 0 <= i < k.value ==> waits[i].operationId != operation
    ensures k.None? ==> forall i :: 0 <= i < |waits| ==> waits[i].operationId != operation
  {
    if waits == [] then None
    else if waits[0].operationId == operation then Some(0)
    else match FindWait(waits[1..], operation)
         case None => None
         case Some(i) => Some(i + 1)
  }

  function SetStatus(r: Record, k: nat, status: WaitStatus, reason: Option<WaitReason>): Record
    requires k < |r.waits|
  {
    r.(waits := r.waits[k := r.waits[k].(status := status, reason := if reason.Some? then reason else r.waits[k].reason)])
  }

  function DoStartWait(r: Record, q: WaitRequest, budgeted: bool, verified: Option<string>): Outcome {
    var unavailable := r.ack.None? && r.capability.Some? && verified != Some(r.capability.value.clockEpoch);
    var initial := if !budgeted || unavailable then Some(Failed) else None;
    var reason := if !budgeted then Some(InsufficientBudget) else if unavailable then Some(HistoryUnavailable) else None;
    match AddWait(r, q.(clockEpoch := verified), initial, reason)
    case Ok(r') => Ok((r', Done))
    case Err(e) => Err(e)
  }

  function DoPollWait(r: Record, operation: string, verified: Option<string>, nowNs: int, deadlineNs: int): Outcome {
    match FindWait(r.waits, operation)
    case None => Err(UncaughtStopIteration)
    case Some(k) =>
      var w := r.waits[k];
      if w.status != Pending then Ok((r, Done))
      else if r.ack.Some? then Ok((SetStatus(r, k, Satisfied, None), Done))
      else if verified.None? || w.clockEpoch != verified then Ok((SetStatus(r, k, Failed, Some(HistoryUnavailable)), Done))
      else if nowNs >= deadlineNs then Ok((SetStatus(r, k, TimedOutUnknown, None), Done))
      else Ok((r, Done))
  }

  function DoStopWait(r: Record, operation: string): Outcome {
    match FindWait(r.waits, operation)
    case None => Err(UncaughtStopIteration)
    case Some(k) =>
      if r.waits[k].status == Pending then Ok((SetStatus(r, k, Stopped, Some(StoppedByOperator)), Done)) else Ok((r, Done))
  }

  /* ----- preparation, effect fence and terminal commit ----- */

  function DoResume(r: Record, binding: Binding, generation: Option<string>, context: Option<NativeContext>): Outcome {
    if r.intent.binding != binding || r.intent.generation != generation then Err(BindingConflict)
    else if r.phase != Prepared then Err(AlreadyAttempted)
    else if r.intent.nativeContext != context then Err(NativeContextChanged)
    else Ok((r, Done))
  }

  function DoAttempt(r: Record, observe: bool, ackRequested: bool, cutoffNs: int, wait: Option<WaitRequest>, clock: Clock): Outcome {
    if r.phase != Prepared then Err(AlreadyAttempted)
    else if clock.tick(1) >= cutoffNs then Err(DeadlinePassed)
    else
      var r' := r.(phase := Attempted, submission := Unknown, observe := observe, ackRequested := ackRequested);
      if wait.None? then Ok((r', Done))
      else match AddWait(r', wait.value, None, None)
           case Ok(r'') => Ok((r'', Done))
           case Err(e) => Err(e)
  }

  // The remote sender neither revokes authority nor closes a wait: it never has one.
  function DoCommit(r: Record, submission: Submission, native: Native, remote: bool, ownWait: Option<string>, interrupted: bool): Outcome {
    var r' := r.(phase := Terminal, native := Some(native), submission := submission);
    if remote || submission == Submitted then Ok((r', Done))
    else
      var r'' := r'.(capability := Revoked(r.capability));
      if ownWait.None? then Ok((r'', Done))
      else match FindWait(r''.waits, ownWait.value)
           case None => Err(UncaughtStopIteration)
           case Some(k) =>
             if r''.waits[k].status != Pending then Ok((r'', Done))
             else if interrupted then Ok((SetStatus(r'', k, Stopped, Some(StoppedByOperator)), Done))
             else Ok((SetStatus(r'', k, Failed, Some(EvidenceFailed)), Done))
  }

  function DoRefuse(r: Record, observe: bool, ackRequested: bool, reason: WaitReason, wait: Option<WaitRequest>): Outcome {
    if r.phase != Prepared then Err(AlreadyAttempted)
    else
      var r' := r.(phase := Terminal, submission := Refused, observe := observe, ackRequested := ackRequested);
      var added := if wait.None? then Ok(r')
                   else AddWait(r', wait.value, Some(if reason == EvidenceUnsupported then Unsupported else Failed), Some(reason));
      match added
      case Ok(r'') => Ok((r''.(capability := Revoked(r''.capability)), Done))
      case Err(e) => Err(e)
  }

  /* ----- receipt authority ----- */

  predicate UrlSafeBase64(c: char) {
    'A' <= c <= 'Z' || 'a' <= c <= 'z' || '0' <= c <= '9' || c == '-' || c == '_'
  }

  // 32 bytes in canonical unpadded base64: the last digit has two zero bits.
  predicate IsToken(s: string) {
    |s| == 43 && (forall i :: 0 <= i < 43 ==> UrlSafeBase64(s[i])) && s[42] in "AEIMQUYcgkosw048"
  }

  predicate WireOk(f: Frame) {
    IsUuid4(f.ledgerEpoch) && IsUuid4(f.correlationId) && IsIdentifier(f.generation, 256) && IsUuid4(f.receiptId) && IsToken(f.token)
  }

  function HashOf(epoch: string, r: Record, generation: string, token: string): CapabilityHash {
    CapabilityHash(epoch, r.intent.id, generation, token)
  }

  function DoMint(epoch: string, r: Record, f: Frame, collector: string, clock: Clock): Outcome {
    var now := clock.tick(1);
    if !AddressOk(f) then Err(InvalidReceipt)
    else if epoch != f.ledgerEpoch || r.intent.generation != Some(f.generation) || r.phase != Prepared || r.capability.Some? then
      Err(AuthorityUnavailable)
    else if r.intent.historyBoot.None? || r.intent.historyBoot != clock.boot
            || now < r.intent.createdNs || now >= r.intent.createdNs + DAY_NS then
      Err(AuthorityExpired)
    else
      Ok((r.(capability := Some(Capability(HashOf(epoch, r, f.generation, f.token), collector, r.intent.createdNs + DAY_NS, false))),
          Minted(f.token, collector)))
  }

  function ClassifyWait(w: Wait, collector: string, now: int): Wait {
    if w.status == Pending && w.clockEpoch == Some(collector) then
      w.(status := if now >= w.deadlineNs then TimedOutUnknown else Satisfied)
    else w
  }

  // Whether the presented token proves the record's unrevoked authority.
  predicate Authorized(epoch: string, r: Record, f: Frame) {
    && epoch == f.ledgerEpoch
    && r.intent.generation == Some(f.generation)
    && r.capability.Some? && !r.capability.value.revoked
    && r.capability.value.hash == HashOf(epoch, r, f.generation, f.token)
  }

  function Acknowledge(r: Record, receiptId: string, collector: string, clock: Clock): Record {
    var now := clock.tick(2);
    var late := r.waits != [] && now >= r.waits[0].deadlineNs;
    r.(ack := Some(Ack(TokenPossession, clock.utcMs, late, Some(receiptId), Some(collector))),
       pendingReceipt := None,
       waits := seq(|r.waits|, i requires 0 <= i < |r.waits| => ClassifyWait(r.waits[i], collector, clock.tick(3 + i))))
  }

  // Classification presents a fixed receipt ID.
  const CLASSIFY_RECEIPT := "00000000-0000-4000-8000-000000000000"

  predicate ReceiptWireOk(f: Frame, classify: bool) {
    WireOk(if classify then f.(receiptId := CLASSIFY_RECEIPT) else f)
  }

  // The parts of a mint or confirmation frame that name a record.
  predicate AddressOk(f: Frame) {
    IsUuid4(f.ledgerEpoch) && IsUuid4(f.correlationId) && IsIdentifier(f.generation, 256)
  }

  function DoReceive(epoch: string, r: Record, f: Frame, collector: string, classify: bool, clock: Clock): Outcome {
    if !ReceiptWireOk(f, classify) then Err(InvalidReceipt)
    else if !Authorized(epoch, r, f) then Err(AuthorityUnavailable)
    else if r.ack.Some? then
      if r.ack.value.assurance != TokenPossession || (!classify && r.ack.value.receiptId != Some(f.receiptId)) then
        Err(ReceiptConflict)
      else Ok((r, Receipt(true, false)))
    else if r.capability.value.clockEpoch != collector || clock.tick(1) >= r.capability.value.expiresNs then Err(AuthorityExpired)
    else if classify && r.pendingReceipt.None? then Ok((r, Receipt(false, false)))
    else if !classify && r.pendingReceipt.Some? && r.pendingReceipt.value.receiptId != f.receiptId then Err(ReceiptConflict)
    else if r.submission != Submitted then
      if r.phase != Attempted then Err(SubmissionUnconfirmed)
      else if r.pendingReceipt.Some? then Ok((r, Receipt(true, true)))
      else Ok((r.(pendingReceipt := Some(PendingReceipt(f.receiptId, collector, clock.tick(2), clock.utcMs))), Receipt(false, true)))
    else if r.waits != [] && r.waits[0].clockEpoch != Some(collector) then Err(OrderUnprovable)
    else if r.pendingReceipt.Some? && r.pendingReceipt.value.clockEpoch != collector then Err(OrderUnprovable)
    else
      var receiptId := if r.pendingReceipt.Some? then r.pendingReceipt.value.receiptId else f.receiptId;
      Ok((Acknowledge(r, receiptId, collector, clock), Receipt(false, false)))
  }

  function DoConfirm(epoch: string, r: Record, f: Frame, clock: Clock): Outcome {
    if !AddressOk(f) then Err(InvalidReceipt)
    else if epoch != f.ledgerEpoch || r.intent.generation != Some(f.generation) then Err(AuthorityUnavailable)
    else if r.submission != Submitted then Err(SubmissionUnconfirmed)
    else if r.ack.Some? then Ok((r, Done))
    else if r.waits != [] && r.waits[0].status != TimedOutUnknown then Err(OrderUnprovable)
    else Ok((r.(ack := Some(Ack(OperatorConfirmed, clock.utcMs, r.waits != [], None, None))), Done))
  }

  function Apply(epoch: string, r: Record, op: Operation, clock: Clock): Outcome {
    match op
    case Read => Ok((r, Done))
    case Resume(binding, generation, context) => DoResume(r, binding, generation, context)
    case Mint(f, collector) => DoMint(epoch, r, f, collector, clock)
    case Receive(f, collector, classify) => DoReceive(epoch, r, f, collector, classify, clock)
    case Revoke => Ok((r.(capability := Revoked(r.capability)), Done))
    case Attempt(observe, ackRequested, cutoff, wait) => DoAttempt(r, observe, ackRequested, cutoff, wait, clock)
    case Commit(submission, native, remote, ownWait, interrupted) => DoCommit(r, submission, native, remote, ownWait, interrupted)
    case Refuse(observe, ackRequested, reason, wait) => DoRefuse(r, observe, ackRequested, reason, wait)
    case StartWait(q, budgeted, verified) => DoStartWait(r, q, budgeted, verified)
    case PollWait(operation, verified, now, deadline) => DoPollWait(r, operation, verified, now, deadline)
    case StopWait(operation) => DoStopWait(r, operation)
    case Confirm(f) => DoConfirm(epoch, r, f, clock)
  }
}
