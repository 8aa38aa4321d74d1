/** Senders, collectors, waiters and the operator interleaved on one handoff ledger. */
module HandoffRuns {
  import opened Text
  import opened HandoffRecord
  import opened HandoffSteps
  import opened HandoffInvariant
  import opened HandoffProgress
  import opened HandoffLedger
  import opened HandoffPublic

  /* ----- one committed transaction, record by record ----- */

  predicate AllStrong(records: Records) {
    forall id :: id in records ==> IsUuid4(id) && records[id].intent.id == id && Strong(records[id])
  }

  // What the caller of a transaction supplies is well formed; a terminal
  // commit is made only by the sender that owns the attempt.
  predicate Acceptable(records: Records, change: Change, clock: Clock) {
    match change
    case Prepare(id, binding, generation, context) =>
      id !in records && ValidIntent(NewRecord(id, binding, generation, context, clock).intent)
    case On(id, op) =>
      InputsOk(op) && (op.Commit? ==> id in records && InFlight(records[id]) && CommitOk(op, records[id].intent))
    case _ => true
  }

  // A receipt ID is the only one the record has acknowledged or still can.
  predicate Locked(r: Record, receiptId: string) {
    && r.phase != Prepared
    && (HasTokenAck(r) ==> r.ack.value.receiptId == Some(receiptId))
    && (|| Dead(r)
        || r.ack.Some?
        || (r.pendingReceipt.Some? && r.pendingReceipt.value.receiptId == receiptId))
  }

  predicate Erases(change: Change, r: Record, clock: Clock) {
    change.QuarantineRestored? || Expired(r, clock.boot, clock.tick(0))
  }

  predicate CommitsOn(change: Change, id: string) {
    change.On? && change.id == id && change.op.Commit?
  }

  // The relation a committed transaction establishes for one old record.
  ghost predicate RecordStep(r: Record, r': Record, change: Change, clock: Clock) {
    && Strong(r')
    && Persists(r, r')
    && (!Erases(change, r, clock) ==> Advances(r, r'))
    && (InFlight(r) && !CommitsOn(change, r.intent.id) ==> InFlight(r'))
    && (forall receiptId :: Locked(r, receiptId) ==> Locked(r', receiptId))
  }

  lemma ApplyKeepsInFlight(epoch: string, r: Record, op: Operation, clock: Clock)
    requires Strong(r) && InFlight(r) && InputsOk(op) && !op.Commit?
    requires Apply(epoch, r, op, clock).Ok?
    ensures InFlight(Apply(epoch, r, op, clock).value.0)
  {
    var r' := Apply(epoch, r, op, clock).value.0;
    if op.StartWait? {
      var unavailable := r.ack.None? && r.capability.Some? && op.verified != Some(r.capability.value.clockEpoch);
      AddWaitKeeps(r, op.request.(clockEpoch := op.verified),
        if !op.budgeted || unavailable then Some(Failed) else None,
        if !op.budgeted then Some(InsufficientBudget) else if unavailable then Some(HistoryUnavailable) else None);
    } else if op.PollWait? || op.StopWait? {
      var k := FindWait(r.waits, op.operation).value;
      if r.waits[k].status == Pending {
        SetStatusKeeps(r, k, Failed, Some(HistoryUnavailable));
        SetStatusKeeps(r, k, TimedOutUnknown, None);
        SetStatusKeeps(r, k, Stopped, Some(StoppedByOperator));
      }
    }
  }

  lemma OtherOperationsKeepReceipt(epoch: string, r: Record, op: Operation, clock: Clock)
    requires !op.Receive? && Apply(epoch, r, op, clock).Ok?
    ensures var r' := Apply(epoch, r, op, clock).value.0;
      && r'.pendingReceipt == r.pendingReceipt
      && (r'.ack == r.ack || (r.ack.None? && r'.ack.Some? && r'.ack.value.assurance == OperatorConfirmed))
  {
  }

  // A locked record accepts only the receipt ID it is locked to.
  lemma ReceiveKeepsLocked(epoch: string, r: Record, f: Frame, collector: string, classify: bool, clock: Clock, receiptId: string)
    requires Strong(r) && Locked(r, receiptId)
    requires DoReceive(epoch, r, f, collector, classify, clock).Ok?
    ensures Locked(DoReceive(epoch, r, f, collector, classify, clock).value.0, receiptId)
    ensures !classify ==> f.receiptId == receiptId
  {
  }

  lemma ApplyKeepsLocked(epoch: string, r: Record, op: Operation, clock: Clock, receiptId: string)
    requires Strong(r) && Allowed(op, r) && Locked(r, receiptId)
    requires Apply(epoch, r, op, clock).Ok?
    ensures Locked(Apply(epoch, r, op, clock).value.0, receiptId)
  {
    if op.Receive? {
      ReceiveKeepsLocked(epoch, r, op.frame, op.collector, op.classify, clock, receiptId);
    } else {
      ApplyAdvances(epoch, r, op, clock);
      OtherOperationsKeepReceipt(epoch, r, op, clock);
    }
  }

  // An accepted receipt locks the record to its ID.
  lemma AcceptedIsLocked(epoch: string, r: Record, f: Frame, collector: string, clock: Clock)
    requires Strong(r) && DoReceive(epoch, r, f, collector, false, clock).Ok?
    ensures Locked(DoReceive(epoch, r, f, collector, false, clock).value.0, f.receiptId)
  {
  }

  lemma ErasureKeepsLocked(r: Record, boot: Option<string>, now: int, receiptId: string)
    requires Locked(r, receiptId)
    ensures Locked(Retained(r, boot, now), receiptId)
    ensures Locked(AfterQuarantine(r), receiptId)
    ensures Locked(AfterCollectorStart(r), receiptId)
  {
  }

  lemma ErasureKeepsInFlight(r: Record, boot: Option<string>, now: int)
    requires InFlight(r)
    ensures InFlight(Retained(r, boot, now)) && InFlight(AfterQuarantine(r)) && InFlight(AfterCollectorStart(r))
  {
    forall i | 0 <= i < |r.waits| ensures FailPending(r.waits[i]).status != Satisfied { }
  }

  // Retention followed by one operation.
  lemma StepOnRecord(epoch: string, r: Record, op: Operation, clock: Clock)
    requires Strong(r) && ClockOk(clock) && InputsOk(op)
    requires op.Commit? ==> InFlight(r) && CommitOk(op, r.intent)
    requires Apply(epoch, Retained(r, clock.boot, clock.tick(0)), op, clock).Ok?
    ensures RecordStep(r, Apply(epoch, Retained(r, clock.boot, clock.tick(0)), op, clock).value.0, On(r.intent.id, op), clock)
  {
    var kept := Retained(r, clock.boot, clock.tick(0));
    var r' := Apply(epoch, kept, op, clock).value.0;
    RetainedKeepsStrong(r, clock.boot, clock.tick(0));
    ErasurePersists(r, clock.boot, clock.tick(0));
    if InFlight(r) {
      ErasureKeepsInFlight(r, clock.boot, clock.tick(0));
      if !op.Commit? { ApplyKeepsInFlight(epoch, kept, op, clock); }
    }
    ApplyKeepsStrong(epoch, kept, op, clock);
    ApplyAdvances(epoch, kept, op, clock);
    PersistsTransitive(r, kept, r');
    forall receiptId | Locked(r, receiptId) ensures Locked(r', receiptId) {
      ErasureKeepsLocked(r, clock.boot, clock.tick(0), receiptId);
      ApplyKeepsLocked(epoch, kept, op, clock, receiptId);
    }
  }

  // Retention followed by a collector start, a quarantine or nothing.
  lemma StepOnAll(r: Record, change: Change, clock: Clock)
    requires Strong(r)
    ensures RecordStep(r, AfterCollectorStart(Retained(r, clock.boot, clock.tick(0))), CollectorStart, clock)
    ensures RecordStep(r, AfterQuarantine(Retained(r, clock.boot, clock.tick(0))), QuarantineRestored, clock)
    ensures !change.QuarantineRestored? && !CommitsOn(change, r.intent.id) ==>
      RecordStep(r, Retained(r, clock.boot, clock.tick(0)), change, clock)
  {
    var kept := Retained(r, clock.boot, clock.tick(0));
    RetainedKeepsStrong(r, clock.boot, clock.tick(0));
    CollectorStartKeepsStrong(kept);
    QuarantineKeepsStrong(kept);
    ErasurePersists(r, clock.boot, clock.tick(0));
    ErasurePersists(kept, clock.boot, clock.tick(0));
    PersistsTransitive(r, kept, AfterCollectorStart(kept));
    PersistsTransitive(r, kept, AfterQuarantine(kept));
    if InFlight(r) {
      ErasureKeepsInFlight(r, clock.boot, clock.tick(0));
      ErasureKeepsInFlight(kept, clock.boot, clock.tick(0));
    }
    forall receiptId | Locked(r, receiptId)
      ensures Locked(kept, receiptId) && Locked(AfterCollectorStart(kept), receiptId) && Locked(AfterQuarantine(kept), receiptId)
    {
      ErasureKeepsLocked(r, clock.boot, clock.tick(0), receiptId);
      ErasureKeepsLocked(kept, clock.boot, clock.tick(0), receiptId);
    }
  }

  lemma NewRecordIsStrong(id: string, binding: Binding, generation: Option<string>, context: Option<NativeContext>, clock: Clock)
    requires ClockOk(clock) && ValidIntent(NewRecord(id, binding, generation, context, clock).intent)
    ensures Strong(NewRecord(id, binding, generation, context, clock))
  {
    assert 0 <= clock.tick(1) <= MAX_CLOCK_NS - DAY_NS;
  }

  // What a change makes of one record that was there before.
  lemma StepOnOld(epoch: string, records: Records, change: Change, clock: Clock, id: string)
    requires AllStrong(records) && ClockOk(clock) && Acceptable(records, change, clock) && id in records
    requires ApplyChange(epoch, RetainAll(records, clock), change, clock).Ok?
    ensures var after := ApplyChange(epoch, RetainAll(records, clock), change, clock).value.0;
            id in after && RecordStep(records[id], after[id], change, clock)
  {
    hide ValidRecord, RecordStep, Retained;
    var r, kept := records[id], RetainAll(records, clock);
    assert r.intent.id == id && Strong(r);
    hide Strong;
    assert kept[id] == Retained(r, clock.boot, clock.tick(0));
    var after := ApplyChange(epoch, kept, change, clock).value.0;
    match change
    case On(other, op) =>
      if other == id {
        assert change == On(r.intent.id, op);
        assert after[id] == Apply(epoch, kept[id], op, clock).value.0;
        StepOnRecord(epoch, r, op, clock);
      } else {
        assert after[id] == kept[id] && !CommitsOn(change, id);
        StepOnAll(r, change, clock);
      }
    case Prepare(other, _, _, _) =>
      assert after[id] == kept[id];
      StepOnAll(r, change, clock);
    case CollectorStart =>
      assert after[id] == AfterCollectorStart(kept[id]);
      StepOnAll(r, change, clock);
    case QuarantineRestored =>
      assert after[id] == AfterQuarantine(kept[id]);
      StepOnAll(r, change, clock);
  }

  lemma ChangeKeys(epoch: string, records: Records, change: Change, clock: Clock)
    requires ApplyChange(epoch, RetainAll(records, clock), change, clock).Ok?
    ensures ApplyChange(epoch, RetainAll(records, clock), change, clock).value.0.Keys
         == records.Keys + (if change.Prepare? then {change.id} else {})
  {
  }

  // Every committed transaction keeps every record strong, forgets no record
  // and changes each one only as RecordStep allows.
  lemma TransactionStep(size: Record -> nat, epoch: string, records: Records, change: Change, clock: Clock)
    requires AllStrong(records) && ClockOk(clock) && Acceptable(records, change, clock)
    requires Transact(size, epoch, records, change, clock).Ok?
    ensures var after := Transact(size, epoch, records, change, clock).value.0;
      && AllStrong(after)
      && after.Keys == records.Keys + (if change.Prepare? then {change.id} else {})
      && (forall id :: id in records ==> RecordStep(records[id], after[id], change, clock))
      && (change.Prepare? ==> after[change.id] == NewRecord(change.id, change.binding, change.generation, change.nativeContext, clock))
  {
    var after := Transact(size, epoch, records, change, clock).value.0;
    ChangeKeys(epoch, records, change, clock);
    forall id | id in records ensures RecordStep(records[id], after[id], change, clock) {
      StepOnOld(epoch, records, change, clock, id);
    }
    if change.Prepare? {
      NewRecordIsStrong(change.id, change.binding, change.generation, change.nativeContext, clock);
    }
    forall id | id in after ensures IsUuid4(id) && after[id].intent.id == id && Strong(after[id]) {
      if id in records {
        assert RecordStep(records[id], after[id], change, clock);
      }
    }
  }

  lemma StrongIsReadable(records: Records)
    requires AllStrong(records)
    ensures Readable(records)
  {
  }
}
