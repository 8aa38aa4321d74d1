/** What a handoff record never takes back (session_peer_core/handoff.py). */
module HandoffProgress {
  import opened Text
  import opened HandoffRecord
  import opened HandoffSteps
  import opened HandoffInvariant

  // A wait keeps its goal, ID and deadline; once it left pending it is final.
  predicate WaitAdvances(w: Wait, w': Wait) {
    && (w.goal, w.operationId, w.deadlineAtUtcMs, w.deadlineNs, w.clockEpoch)
       == (w'.goal, w'.operationId, w'.deadlineAtUtcMs, w'.deadlineNs, w'.clockEpoch)
    && (w.status != Pending ==> w' == w)
  }

  predicate WaitsAdvance(s: seq<Wait>, s': seq<Wait>) {
    |s| <= |s'| && forall i :: 0 <= i < |s| ==> WaitAdvances(s[i], s'[i])
  }

  // One operation on a record that is neither expired nor quarantined by it.
  predicate Advances(r: Record, r': Record) {
    && r'.intent == r.intent
    && WaitsAdvance(r.waits, r'.waits)
    && (r.ack.Some? ==> r'.ack == r.ack)
    && (r.submission in {Submitted, Refused} ==> r'.submission == r.submission && r'.native == r.native)
    && (r.phase != Prepared ==> r'.phase != Prepared)
  }

  // Authority that can never be used, or minted, again.
  predicate Dead(r: Record) {
    if r.capability.Some? then r.capability.value.revoked else r.phase != Prepared
  }

  predicate HasTokenAck(r: Record) {
    r.ack.Some? && r.ack.value.assurance == TokenPossession
  }

  // What even expiry and quarantine respect.
  predicate Persists(r: Record, r': Record) {
    && r'.intent == r.intent
    && (r.phase != Prepared ==> r'.phase != Prepared)
    && (Dead(r) ==> Dead(r') && (HasTokenAck(r') ==> HasTokenAck(r)))
    && (r.capability.None? && r.phase != Prepared ==> r'.capability.None?)
    && (r.capability.Some? && r'.capability.None? ==> r'.phase != Prepared)
    && (r.capability.Some? && r'.capability.Some? ==>
          r'.capability.value in {r.capability.value, r.capability.value.(revoked := true)})
  }

  lemma SetStatusAdvances(r: Record, k: nat, status: WaitStatus, reason: Option<WaitReason>)
    requires k < |r.waits| && r.waits[k].status == Pending
    ensures WaitsAdvance(r.waits, SetStatus(r, k, status, reason).waits)
  {
  }

  lemma AddWaitAdvances(r: Record, q: WaitRequest, initial: Option<WaitStatus>, reason: Option<WaitReason>)
    requires AddWait(r, q, initial, reason).Ok?
    ensures var r' := AddWait(r, q, initial, reason).value; r' == r.(waits := r'.waits) && WaitsAdvance(r.waits, r'.waits)
  {
  }

  lemma CommitAdvances(r: Record, op: Operation)
    requires Strong(r) && op.Commit? && InFlight(r) && CommitOk(op, r.intent)
    requires DoCommit(r, op.submission, op.native, op.remote, op.ownWait, op.interrupted).Ok?
    ensures var r' := DoCommit(r, op.submission, op.native, op.remote, op.ownWait, op.interrupted).value.0;
            Advances(r, r') && Persists(r, r')
  {
    if op.ownWait.Some? && !op.remote && op.submission != Submitted {
      var r'' := r.(phase := Terminal, native := Some(op.native), submission := op.submission, capability := Revoked(r.capability));
      var k := FindWait(r''.waits, op.ownWait.value).value;
      if r''.waits[k].status == Pending {
        SetStatusAdvances(r'', k, Stopped, Some(StoppedByOperator));
        SetStatusAdvances(r'', k, Failed, Some(EvidenceFailed));
      }
    }
  }

  lemma AttemptAdvances(r: Record, observe: bool, ackRequested: bool, cutoff: int, wait: Option<WaitRequest>, clock: Clock)
    requires ValidRecord(r) && DoAttempt(r, observe, ackRequested, cutoff, wait, clock).Ok?
    ensures var r' := DoAttempt(r, observe, ackRequested, cutoff, wait, clock).value.0; Advances(r, r') && Persists(r, r')
  {
    if wait.Some? {
      AddWaitAdvances(r.(phase := Attempted, submission := Unknown, observe := observe, ackRequested := ackRequested), wait.value, None, None);
    }
  }

  lemma RefuseAdvances(r: Record, observe: bool, ackRequested: bool, reason: WaitReason, wait: Option<WaitRequest>)
    requires ValidRecord(r) && DoRefuse(r, observe, ackRequested, reason, wait).Ok?
    ensures var r' := DoRefuse(r, observe, ackRequested, reason, wait).value.0; Advances(r, r') && Persists(r, r')
  {
    if wait.Some? {
      AddWaitAdvances(r.(phase := Terminal, submission := Refused, observe := observe, ackRequested := ackRequested), wait.value,
                      Some(if reason == EvidenceUnsupported then Unsupported else Failed), Some(reason));
    }
  }

  lemma AcknowledgeAdvances(r: Record, receiptId: string, collector: string, clock: Clock)
    requires r.ack.None? && !Dead(r)
    ensures var r' := Acknowledge(r, receiptId, collector, clock); Advances(r, r') && Persists(r, r')
  {
  }

  lemma ReceiveAdvances(epoch: string, r: Record, f: Frame, collector: string, classify: bool, clock: Clock)
    requires ValidRecord(r) && DoReceive(epoch, r, f, collector, classify, clock).Ok?
    ensures var r' := DoReceive(epoch, r, f, collector, classify, clock).value.0; Advances(r, r') && Persists(r, r')
  {
    if r.ack.None? {
      var receiptId := if r.pendingReceipt.Some? then r.pendingReceipt.value.receiptId else f.receiptId;
      AcknowledgeAdvances(r, receiptId, collector, clock);
    }
  }

  lemma ConfirmAdvances(epoch: string, r: Record, f: Frame, clock: Clock)
    requires DoConfirm(epoch, r, f, clock).Ok?
    ensures var r' := DoConfirm(epoch, r, f, clock).value.0; Advances(r, r') && Persists(r, r')
  {
  }

  lemma MintAdvances(epoch: string, r: Record, f: Frame, collector: string, clock: Clock)
    requires ValidRecord(r) && DoMint(epoch, r, f, collector, clock).Ok?
    ensures var r' := DoMint(epoch, r, f, collector, clock).value.0; Advances(r, r') && Persists(r, r')
  {
  }

  lemma StopAdvances(r: Record, operation: string)
    requires DoStopWait(r, operation).Ok?
    ensures var r' := DoStopWait(r, operation).value.0; Advances(r, r') && Persists(r, r')
  {
  }

  lemma StartWaitAdvances(r: Record, q: WaitRequest, budgeted: bool, verified: Option<string>)
    requires DoStartWait(r, q, budgeted, verified).Ok?
    ensures var r' := DoStartWait(r, q, budgeted, verified).value.0; Advances(r, r') && Persists(r, r')
  {
  }

  lemma PollAdvances(r: Record, operation: string, verified: Option<string>, now: int, deadline: int)
    requires DoPollWait(r, operation, verified, now, deadline).Ok?
    ensures var r' := DoPollWait(r, operation, verified, now, deadline).value.0; Advances(r, r') && Persists(r, r')
  {
  }

  // No operation takes back a final wait, an acknowledgement, a decided
  // submission, a used intent or a withdrawn authority.
  lemma ApplyAdvances(epoch: string, r: Record, op: Operation, clock: Clock)
    requires Strong(r) && Allowed(op, r)
    requires Apply(epoch, r, op, clock).Ok?
    ensures Advances(r, Apply(epoch, r, op, clock).value.0)
    ensures Persists(r, Apply(epoch, r, op, clock).value.0)
  {
    match op
    case Read =>
    case Resume(_, _, _) =>
    case Mint(f, collector) => MintAdvances(epoch, r, f, collector, clock);
    case Receive(f, collector, classify) => ReceiveAdvances(epoch, r, f, collector, classify, clock);
    case Revoke =>
    case Attempt(observe, ackRequested, cutoff, wait) => AttemptAdvances(r, observe, ackRequested, cutoff, wait, clock);
    case Commit(_, _, _, _, _) => CommitAdvances(r, op);
    case Refuse(observe, ackRequested, reason, wait) => RefuseAdvances(r, observe, ackRequested, reason, wait);
    case StartWait(q, budgeted, verified) => StartWaitAdvances(r, q, budgeted, verified);
    case PollWait(operation, verified, now, deadline) => PollAdvances(r, operation, verified, now, deadline);
    case StopWait(operation) => StopAdvances(r, operation);
    case Confirm(f) => ConfirmAdvances(epoch, r, f, clock);
  }

  lemma ErasurePersists(r: Record, boot: Option<string>, now: int)
    ensures Persists(r, Retained(r, boot, now))
    ensures Persists(r, AfterQuarantine(r))
    ensures Persists(r, AfterCollectorStart(r)) && Advances(r, AfterCollectorStart(r))
  {
  }

  lemma AdvancesTransitive(a: Record, b: Record, c: Record)
    requires Advances(a, b) && Advances(b, c)
    ensures Advances(a, c)
  {
    forall i | 0 <= i < |a.waits| ensures WaitAdvances(a.waits[i], c.waits[i]) {
      assert WaitAdvances(a.waits[i], b.waits[i]) && WaitAdvances(b.waits[i], c.waits[i]);
    }
  }

  lemma PersistsTransitive(a: Record, b: Record, c: Record)
    requires Persists(a, b) && Persists(b, c)
    ensures Persists(a, c)
  {
  }
}
