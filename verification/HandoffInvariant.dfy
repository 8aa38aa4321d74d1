/** Every ledger operation keeps the record check, and more (session_peer_core/handoff.py). */
module HandoffInvariant {
  import opened Text
  import opened HandoffRecord
  import opened HandoffSteps

  /* ----- what the environment supplies ----- */

  ghost predicate ClockOk(c: Clock) {
    && (forall k: nat :: 0 <= c.tick(k) <= MAX_CLOCK_NS - DAY_NS)
    && UtcMs(c.utcMs)
    && (c.boot.Some? ==> IsDigest(c.boot.value))
  }

  predicate WaitInputOk(q: WaitRequest) {
    && IsUuid4(q.operationId)
    && ClockNs(q.deadlineNs) && UtcMs(q.deadlineAtUtcMs)
    && (q.clockEpoch.Some? ==> IsUuid4(q.clockEpoch.value))
  }

  predicate InputsOk(op: Operation) {
    match op
    case Mint(_, collector) => IsUuid4(collector)
    case Receive(_, collector, _) => IsUuid4(collector)
    case Attempt(_, _, _, wait) => wait.Some? ==> WaitInputOk(wait.value)
    case Refuse(_, _, _, wait) => wait.Some? ==> WaitInputOk(wait.value)
    case StartWait(q, _, verified) => WaitInputOk(q) && (verified.Some? ==> IsUuid4(verified.value))
    case _ => true
  }

  // The state of a record whose sender has passed the effect fence and not
  // yet committed: nothing but erasure can have happened to its facts.
  predicate InFlight(r: Record) {
    r.phase in {Attempted, Tombstone, Quarantined} && !HasSatisfied(r.waits)
  }

  predicate CommitOk(op: Operation, i: Intent)
    requires op.Commit?
  {
    op.submission in {Submitted, Refused, Unknown} && ValidNative(op.native, op.submission, i)
  }

  predicate Allowed(op: Operation, r: Record) {
    InputsOk(op) && (op.Commit? ==> InFlight(r) && CommitOk(op, r.intent))
  }

  /* ----- preservation ----- */

  lemma RetainedKeepsStrong(r: Record, boot: Option<string>, now: int)
    requires Strong(r)
    ensures Strong(Retained(r, boot, now))
  {
  }

  lemma QuarantineKeepsStrong(r: Record)
    requires Strong(r)
    ensures Strong(AfterQuarantine(r))
  {
  }

  lemma CollectorStartKeepsStrong(r: Record)
    requires Strong(r)
    ensures Strong(AfterCollectorStart(r))
  {
  }

  // A new wait is satisfied never, and pending only for an acknowledgement.
  lemma AddWaitKeeps(r: Record, q: WaitRequest, initial: Option<WaitStatus>, reason: Option<WaitReason>)
    requires WaitInputOk(q)
    requires initial.None? || initial.value in {Unsupported, Failed}
    requires AddWait(r, q, initial, reason).Ok?
    ensures var r' := AddWait(r, q, initial, reason).value;
      && r' == r.(waits := r'.waits) && |r'.waits| == |r.waits| + 1 <= MAX_WAITS
      && r.waits == r'.waits[..|r.waits|]
      && ValidWait(r'.waits[|r.waits|])
      && (r'.waits[|r.waits|].status == Pending ==> r'.waits[|r.waits|].goal == Acknowledged)
      && (HasSatisfied(r'.waits) <==> HasSatisfied(r.waits))
  {
    var r' := AddWait(r, q, initial, reason).value;
    if HasSatisfied(r.waits) {
      var i :| 0 <= i < |r.waits| && r.waits[i].status == Satisfied;
      assert r'.waits[i].status == Satisfied;
    }
  }

  lemma AttemptKeepsStrong(r: Record, observe: bool, ackRequested: bool, cutoff: int, wait: Option<WaitRequest>, clock: Clock)
    requires Strong(r) && (wait.Some? ==> WaitInputOk(wait.value))
    requires DoAttempt(r, observe, ackRequested, cutoff, wait, clock).Ok?
    ensures Strong(DoAttempt(r, observe, ackRequested, cutoff, wait, clock).value.0)
    ensures InFlight(DoAttempt(r, observe, ackRequested, cutoff, wait, clock).value.0)
  {
    if wait.Some? {
      var r' := r.(phase := Attempted, submission := Unknown, observe := observe, ackRequested := ackRequested);
      AddWaitKeeps(r', wait.value, None, None);
    }
  }

  lemma RefuseKeepsStrong(r: Record, observe: bool, ackRequested: bool, reason: WaitReason, wait: Option<WaitRequest>)
    requires Strong(r) && (wait.Some? ==> WaitInputOk(wait.value))
    requires DoRefuse(r, observe, ackRequested, reason, wait).Ok?
    ensures Strong(DoRefuse(r, observe, ackRequested, reason, wait).value.0)
  {
    if wait.Some? {
      var r' := r.(phase := Terminal, submission := Refused, observe := observe, ackRequested := ackRequested);
      AddWaitKeeps(r', wait.value, Some(if reason == EvidenceUnsupported then Unsupported else Failed), Some(reason));
    }
  }

  lemma StartWaitKeepsStrong(r: Record, q: WaitRequest, budgeted: bool, verified: Option<string>)
    requires Strong(r) && WaitInputOk(q) && (verified.Some? ==> IsUuid4(verified.value))
    requires DoStartWait(r, q, budgeted, verified).Ok?
    ensures Strong(DoStartWait(r, q, budgeted, verified).value.0)
  {
    hide IsUuid4, IsIdentifier;
    var unavailable := r.ack.None? && r.capability.Some? && verified != Some(r.capability.value.clockEpoch);
    var initial := if !budgeted || unavailable then Some(Failed) else None;
    var reason := if !budgeted then Some(InsufficientBudget) else if unavailable then Some(HistoryUnavailable) else None;
    AddWaitKeeps(r, q.(clockEpoch := verified), initial, reason);
  }

  // Rewriting one pending wait keeps the record strong; it may become
  // satisfied only when there is an acknowledgement.
  lemma SetStatusKeeps(r: Record, k: nat, status: WaitStatus, reason: Option<WaitReason>)
    requires Strong(r) && k < |r.waits| && r.waits[k].status == Pending
    requires status != Pending && (status == Stopped ==> reason == Some(StoppedByOperator))
    requires status == Satisfied ==> r.ack.Some?
    ensures Strong(SetStatus(r, k, status, reason))
    ensures status != Satisfied ==> (HasSatisfied(SetStatus(r, k, status, reason).waits) <==> HasSatisfied(r.waits))
  {
    var r' := SetStatus(r, k, status, reason);
    forall i | 0 <= i < |r.waits| && i != k ensures r'.waits[i] == r.waits[i] { }
    if i :| 0 <= i < |r.waits| && r.waits[i].status == Satisfied {
      assert r'.waits[i].status == Satisfied;
    }
  }

  lemma CommitKeepsStrong(r: Record, op: Operation)
    requires Strong(r) && op.Commit? && InFlight(r) && CommitOk(op, r.intent)
    requires DoCommit(r, op.submission, op.native, op.remote, op.ownWait, op.interrupted).Ok?
    ensures Strong(DoCommit(r, op.submission, op.native, op.remote, op.ownWait, op.interrupted).value.0)
  {
    var r' := r.(phase := Terminal, native := Some(op.native), submission := op.submission);
    assert Strong(r');
    if !op.remote && op.submission != Submitted {
      var r'' := r'.(capability := Revoked(r.capability));
      assert Strong(r'');
      if op.ownWait.Some? {
        var k := FindWait(r''.waits, op.ownWait.value).value;
        if r''.waits[k].status == Pending {
          SetStatusKeeps(r'', k, Stopped, Some(StoppedByOperator));
          SetStatusKeeps(r'', k, Failed, Some(EvidenceFailed));
        }
      }
    }
  }

  lemma AcknowledgeKeepsStrong(r: Record, receiptId: string, collector: string, clock: Clock)
    requires Strong(r) && r.submission == Submitted && r.intent.generation.Some?
    requires IsUuid4(receiptId) && IsUuid4(collector) && UtcMs(clock.utcMs)
    ensures Strong(Acknowledge(r, receiptId, collector, clock))
  {
    var r' := Acknowledge(r, receiptId, collector, clock);
    forall i | 0 <= i < |r'.waits|
      ensures ValidWait(r'.waits[i]) && r'.waits[i].goal == r.waits[i].goal
      ensures r'.waits[i].status in {Pending, Satisfied} ==> r'.waits[i].goal == Acknowledged
    {
      assert ValidWait(r.waits[i]);
    }
  }

  lemma ReceiveKeepsStrong(epoch: string, r: Record, f: Frame, collector: string, classify: bool, clock: Clock)
    requires Strong(r) && ClockOk(clock) && IsUuid4(collector)
    requires DoReceive(epoch, r, f, collector, classify, clock).Ok?
    ensures Strong(DoReceive(epoch, r, f, collector, classify, clock).value.0)
  {
    var r' := DoReceive(epoch, r, f, collector, classify, clock).value.0;
    if r' != r {
      if r.submission == Submitted {
        var receiptId := if r.pendingReceipt.Some? then r.pendingReceipt.value.receiptId else f.receiptId;
        AcknowledgeKeepsStrong(r, receiptId, collector, clock);
      } else {
        assert 0 <= clock.tick(2) <= MAX_CLOCK_NS - DAY_NS;
        assert r' == r.(pendingReceipt := r'.pendingReceipt) && ValidPending(r'.pendingReceipt.value);
      }
    }
  }

  lemma MintKeepsStrong(epoch: string, r: Record, f: Frame, collector: string, clock: Clock)
    requires Strong(r) && IsUuid4(collector)
    requires DoMint(epoch, r, f, collector, clock).Ok?
    ensures Strong(DoMint(epoch, r, f, collector, clock).value.0)
  {
  }

  lemma ConfirmKeepsStrong(epoch: string, r: Record, f: Frame, clock: Clock)
    requires Strong(r) && UtcMs(clock.utcMs)
    requires DoConfirm(epoch, r, f, clock).Ok?
    ensures Strong(DoConfirm(epoch, r, f, clock).value.0)
  {
  }

  lemma PollKeepsStrong(r: Record, operation: string, verified: Option<string>, now: int, deadline: int)
    requires Strong(r) && DoPollWait(r, operation, verified, now, deadline).Ok?
    ensures Strong(DoPollWait(r, operation, verified, now, deadline).value.0)
  {
    var k := FindWait(r.waits, operation).value;
    if r.waits[k].status == Pending {
      if r.ack.Some? {
        SetStatusKeeps(r, k, Satisfied, None);
      } else if verified.None? || r.waits[k].clockEpoch != verified {
        SetStatusKeeps(r, k, Failed, Some(HistoryUnavailable));
      } else {
        SetStatusKeeps(r, k, TimedOutUnknown, None);
      }
    }
  }

  lemma StopKeepsStrong(r: Record, operation: string)
    requires Strong(r) && DoStopWait(r, operation).Ok?
    ensures Strong(DoStopWait(r, operation).value.0)
  {
    var k := FindWait(r.waits, operation).value;
    if r.waits[k].status == Pending {
      SetStatusKeeps(r, k, Stopped, Some(StoppedByOperator));
    }
  }

  lemma RevokeKeepsStrong(r: Record)
    requires Strong(r)
    ensures Strong(r.(capability := Revoked(r.capability)))
  {
  }

  // Every operation keeps the strong invariant of its record.
  lemma ApplyKeepsStrong(epoch: string, r: Record, op: Operation, clock: Clock)
    requires Strong(r) && ClockOk(clock) && Allowed(op, r)
    requires Apply(epoch, r, op, clock).Ok?
    ensures Strong(Apply(epoch, r, op, clock).value.0)
    ensures op.Attempt? ==> InFlight(Apply(epoch, r, op, clock).value.0)
  {
    match op
    case Read =>
    case Resume(_, _, _) =>
    case Mint(f, collector) => MintKeepsStrong(epoch, r, f, collector, clock);
    case Receive(f, collector, classify) => ReceiveKeepsStrong(epoch, r, f, collector, classify, clock);
    case Revoke => RevokeKeepsStrong(r);
    case Attempt(observe, ackRequested, cutoff, wait) => AttemptKeepsStrong(r, observe, ackRequested, cutoff, wait, clock);
    case Commit(_, _, _, _, _) => CommitKeepsStrong(r, op);
    case Refuse(observe, ackRequested, reason, wait) => RefuseKeepsStrong(r, observe, ackRequested, reason, wait);
    case StartWait(q, budgeted, verified) => StartWaitKeepsStrong(r, q, budgeted, verified);
    case PollWait(operation, verified, now, deadline) => PollKeepsStrong(r, operation, verified, now, deadline);
    case StopWait(operation) => StopKeepsStrong(r, operation);
    case Confirm(f) => ConfirmKeepsStrong(epoch, r, f, clock);
  }
}
