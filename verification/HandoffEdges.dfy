/** Inputs on which the ledger does not keep its own check, with the exact condition (session_peer_core/handoff.py). */
module HandoffEdges {
  import opened Text
  import opened HandoffRecord
  import opened HandoffSteps
  import opened HandoffInvariant
  import opened HandoffPublic
  import opened HandoffLedger
  import opened HandoffRuns

  const SECOND: int := 1000000000

  // A wait budget of timeout seconds reserves the last five for cleanup.
  function WaitDeadline(now: int, timeout: int): int {
    now + timeout * SECOND - 5 * SECOND
  }

  // A new wait is acceptable to the next reader exactly when its own fields are.
  lemma AddedWaitValidIff(r: Record, q: WaitRequest, initial: Option<WaitStatus>, reason: Option<WaitReason>)
    requires ValidRecord(r) && AddWait(r, q, initial, reason).Ok?
    requires initial.None? || initial.value in {Unsupported, Failed}
    ensures ValidRecord(AddWait(r, q, initial, reason).value) <==> WaitInputOk(q)
  {
    hide ValidIntent, ValidAck, ValidPending, ValidNative, IsUuid4;
    var r' := AddWait(r, q, initial, reason).value;
    var n := |r.waits|;
    assert r'.waits[n].operationId == q.operationId;
    assert ValidWait(r'.waits[n]) <==> WaitInputOk(q);
    forall i | 0 <= i < n ensures r'.waits[i] == r.waits[i] { }
  }

  // Within five seconds of boot a short wait budget stores a negative deadline.
  // The refusal is saved all the same, and every later transaction then finds
  // the ledger corrupt.
  lemma RefusalReadableIff(r: Record, observe: bool, ackRequested: bool, reason: WaitReason, q: WaitRequest, now: int, timeout: int)
    requires Strong(r) && r.phase == Prepared && |r.waits| < MAX_WAITS
    requires 0 <= now <= MAX_CLOCK_NS - DAY_NS && 1 <= timeout <= 60
    requires q.deadlineNs == WaitDeadline(now, timeout)
    requires IsUuid4(q.operationId) && UtcMs(q.deadlineAtUtcMs) && q.clockEpoch.None?
    ensures DoRefuse(r, observe, ackRequested, reason, Some(q)).Ok?
    ensures ValidRecord(DoRefuse(r, observe, ackRequested, reason, Some(q)).value.0) <==> now + timeout * SECOND >= 5 * SECOND
  {
    hide ValidIntent, ValidAck, ValidPending, ValidNative, IsUuid4;
    var refused := r.(phase := Terminal, submission := Refused, observe := observe, ackRequested := ackRequested);
    assert ValidRecord(refused);
    var initial := Some(if reason == EvidenceUnsupported then Unsupported else Failed);
    AddedWaitValidIff(refused, q, initial, Some(reason));
    var added := AddWait(refused, q, initial, Some(reason)).value;
    assert ValidRecord(added.(capability := Revoked(added.capability))) <==> ValidRecord(added);
  }

  // Authority minted for an intent prepared in the last day the clock can
  // represent carries an expiry that the next reader refuses.
  lemma MintReadableIff(epoch: string, r: Record, f: Frame, collector: string, clock: Clock)
    requires ValidRecord(r) && IsUuid4(collector) && DoMint(epoch, r, f, collector, clock).Ok?
    ensures ValidRecord(DoMint(epoch, r, f, collector, clock).value.0) <==> r.intent.createdNs <= MAX_CLOCK_NS - DAY_NS
  {
    hide ValidBinding, ValidContext, ValidAck, ValidPending, ValidNative, ValidWait, IsUuid4, IsIdentifier;
  }

  // One record that fails the check refuses every transaction.
  lemma UnreadableIsCorrupt(size: Record -> nat, epoch: string, records: Records, id: string, change: Change, clock: Clock)
    requires id in records && !ValidRecord(records[id])
    ensures Transact(size, epoch, records, change, clock) == Err(LedgerCorrupt)
  {
  }

  // A refused send that was saved locks the whole ledger, for every later
  // change at any clock reading, if and only if its deadline is negative.
  lemma RefusedSendLocksLedgerIff(size: Record -> nat, epoch: string, records: Records, id: string,
      observe: bool, ackRequested: bool, reason: WaitReason, q: WaitRequest, now: int, timeout: int, clock: Clock)
    requires AllStrong(records) && id in records && records[id].phase == Prepared
    requires 0 <= now <= MAX_CLOCK_NS - DAY_NS && 1 <= timeout <= 60 && q.deadlineNs == WaitDeadline(now, timeout)
    requires IsUuid4(q.operationId) && UtcMs(q.deadlineAtUtcMs) && q.clockEpoch.None?
    requires Transact(size, epoch, records, On(id, Refuse(observe, ackRequested, reason, Some(q))), clock).Ok?
    ensures var after := Transact(size, epoch, records, On(id, Refuse(observe, ackRequested, reason, Some(q))), clock).value.0;
      (forall change, later :: Transact(size, epoch, after, change, later) == Err(LedgerCorrupt))
        <==> now + timeout * SECOND < 5 * SECOND
  {
    var op := Refuse(observe, ackRequested, reason, Some(q));
    var after := Transact(size, epoch, records, On(id, op), clock).value.0;
    RefusedRecord(size, epoch, records, id, op, clock);
    RefusalReadableIff(records[id], observe, ackRequested, reason, q, now, timeout);
    hide Transact, DoRefuse, ValidRecord, Strong, IsUuid4;
    LockedIff(size, epoch, records, after, id, clock);
  }

  // A wait that was started and saved does the same, on a live record or on a
  // tombstone, whatever the collector said.
  lemma StartedWaitLocksLedgerIff(size: Record -> nat, epoch: string, records: Records, id: string,
      q: WaitRequest, budgeted: bool, verified: Option<string>, now: int, timeout: int, clock: Clock)
    requires AllStrong(records) && id in records
    requires 0 <= now <= MAX_CLOCK_NS - DAY_NS && 1 <= timeout <= 60 && q.deadlineNs == WaitDeadline(now, timeout)
    requires IsUuid4(q.operationId) && UtcMs(q.deadlineAtUtcMs) && (verified.Some? ==> IsUuid4(verified.value))
    requires Transact(size, epoch, records, On(id, StartWait(q, budgeted, verified)), clock).Ok?
    ensures var after := Transact(size, epoch, records, On(id, StartWait(q, budgeted, verified)), clock).value.0;
      (forall change, later :: Transact(size, epoch, after, change, later) == Err(LedgerCorrupt))
        <==> now + timeout * SECOND < 5 * SECOND
  {
    var op := StartWait(q, budgeted, verified);
    var after := Transact(size, epoch, records, On(id, op), clock).value.0;
    var kept := Retained(records[id], clock.boot, clock.tick(0));
    hide Transact, Readable, RetainAll, ValidRecord, Strong, Retained, IsUuid4, DoStartWait;
    StartedRecord(size, epoch, records, id, op, clock);
    KeptIsValid(records, id, clock);
    StartedValidIff(kept, q, budgeted, verified);
    assert after[id] == DoStartWait(kept, q, budgeted, verified).value.0;
    LockedIff(size, epoch, records, after, id, clock);
  }

  lemma KeptIsValid(records: Records, id: string, clock: Clock)
    requires AllStrong(records) && id in records
    ensures var kept := Retained(records[id], clock.boot, clock.tick(0)); ValidRecord(kept) && kept.intent.id == id
  {
    hide ValidRecord;
    assert Strong(records[id]);
    RetainedKeepsStrong(records[id], clock.boot, clock.tick(0));
    RetainedIntent(records[id], clock);
  }

  // What a wait that was saved left behind.
  lemma StartedRecord(size: Record -> nat, epoch: string, records: Records, id: string, op: Operation, clock: Clock)
    requires AllStrong(records) && id in records && op.StartWait?
    requires Transact(size, epoch, records, On(id, op), clock).Ok?
    ensures var r := DoStartWait(Retained(records[id], clock.boot, clock.tick(0)), op.request, op.budgeted, op.verified);
      r.Ok? && Transact(size, epoch, records, On(id, op), clock).value.0 == RetainAll(records, clock)[id := r.value.0]
  {
    hide Readable, SaveError, ValidRecord, Strong, DoStartWait, Retained;
    StrongIsReadable(records);
    TransactOn(size, epoch, records, id, op, clock, Apply(epoch, Retained(records[id], clock.boot, clock.tick(0)), op, clock));
  }

  lemma StartedValidIff(r: Record, q: WaitRequest, budgeted: bool, verified: Option<string>)
    requires ValidRecord(r) && DoStartWait(r, q, budgeted, verified).Ok?
    ensures ValidRecord(DoStartWait(r, q, budgeted, verified).value.0) <==> WaitInputOk(q.(clockEpoch := verified))
    ensures DoStartWait(r, q, budgeted, verified).value.0.intent == r.intent
  {
    hide ValidRecord, IsUuid4;
    var unavailable := r.ack.None? && r.capability.Some? && verified != Some(r.capability.value.clockEpoch);
    AddedWaitValidIff(r, q.(clockEpoch := verified),
      if !budgeted || unavailable then Some(Failed) else None,
      if !budgeted then Some(InsufficientBudget) else if unavailable then Some(HistoryUnavailable) else None);
  }

  // What was saved is unreadable for good exactly when its new record is.
  lemma LockedIff(size: Record -> nat, epoch: string, records: Records, after: Records, id: string, clock: Clock)
    requires AllStrong(records) && id in records && id in after
    requires after == RetainAll(records, clock)[id := after[id]] && after[id].intent.id == id
    ensures (forall change, later :: Transact(size, epoch, after, change, later) == Err(LedgerCorrupt)) <==> !ValidRecord(after[id])
  {
    hide Transact, ValidRecord, Strong, IsUuid4;
    if ValidRecord(after[id]) {
      OthersReadable(records, after, id, clock);
      ReadableIsNotCorrupt(size, epoch, after, clock);
    } else {
      forall change, later ensures Transact(size, epoch, after, change, later) == Err(LedgerCorrupt) {
        UnreadableIsCorrupt(size, epoch, after, id, change, later);
      }
    }
  }

  // What a refusal that was saved left behind.
  lemma RefusedRecord(size: Record -> nat, epoch: string, records: Records, id: string, op: Operation, clock: Clock)
    requires AllStrong(records) && id in records && records[id].phase == Prepared && op.Refuse?
    requires Transact(size, epoch, records, On(id, op), clock).Ok?
    ensures var r := DoRefuse(records[id], op.observe, op.ackRequested, op.reason, op.wait);
      && r.Ok? && (op.wait.Some? ==> |records[id].waits| < MAX_WAITS)
      && Transact(size, epoch, records, On(id, op), clock).value.0 == RetainAll(records, clock)[id := r.value.0]
  {
    hide Readable, SaveError, ValidRecord, Strong, DoRefuse, Retained;
    StrongIsReadable(records);
    TransactOn(size, epoch, records, id, op, clock, Apply(epoch, Retained(records[id], clock.boot, clock.tick(0)), op, clock));
    RefusedIsKept(records[id], op, clock);
  }

  // A refusal of an expired record fails, and so does one with too many waits.
  lemma RefusedIsKept(r: Record, op: Operation, clock: Clock)
    requires op.Refuse? && DoRefuse(Retained(r, clock.boot, clock.tick(0)), op.observe, op.ackRequested, op.reason, op.wait).Ok?
    ensures Retained(r, clock.boot, clock.tick(0)) == r
    ensures op.wait.Some? ==> |r.waits| < MAX_WAITS
  {
  }

  lemma OthersReadable(records: Records, after: Records, id: string, clock: Clock)
    requires AllStrong(records) && id in records && id in after
    requires after == RetainAll(records, clock)[id := after[id]]
    requires after[id].intent.id == id && ValidRecord(after[id])
    ensures Readable(after)
  {
    hide ValidRecord, Retained;
    forall k | k in after ensures IsUuid4(k) && after[k].intent.id == k && ValidRecord(after[k]) {
      assert Strong(records[k]);
      if k != id {
        RetainedKeepsStrong(records[k], clock.boot, clock.tick(0));
        RetainedIntent(records[k], clock);
      }
    }
  }

  lemma RetainedIntent(r: Record, clock: Clock)
    ensures Retained(r, clock.boot, clock.tick(0)).intent == r.intent
  {
  }

  lemma ReadableIsNotCorrupt(size: Record -> nat, epoch: string, records: Records, clock: Clock)
    requires Readable(records)
    ensures Transact(size, epoch, records, CollectorStart, clock) != Err(LedgerCorrupt)
  {
    hide Readable, RetainAll;
  }

  // Quarantine clears the acknowledgement but leaves a satisfied wait, so the
  // record can no longer be exported.
  lemma QuarantineAfterReceiptHidesRecord(epoch: string, r: Record, activeClock: Option<string>, now: int)
    requires Strong(r) && LastWait(r).Some? && LastWait(r).value.status == Satisfied
    ensures !ValidView(Public(epoch, AfterQuarantine(r), activeClock, now))
  {
    var q := AfterQuarantine(r);
    assert LastWait(q).value == LastWait(r).value && q.ack.None?;
    assert !ValidWaitView(Public(epoch, q, activeClock, now)) by {
      assert LastWait(r).value == r.waits[|r.waits| - 1];
    }
  }
}
