/** The persistent handoff ledger: one locked, validated, capacity-checked transaction at a time. */
module HandoffLedger {
  import opened Text
  import opened HandoffRecord
  import opened HandoffSteps
  import opened HandoffInvariant

  type Records = map<string, Record>

  const LEDGER_BYTES: int := 33554432
  const RECORD_BYTES: int := 32768
  const MAX_RECORDS: int := 10000

  datatype Change =
    | Prepare(id: string, binding: Binding, generation: Option<string>, nativeContext: Option<NativeContext>)
    | On(id: string, op: Operation)
    | CollectorStart
    | QuarantineRestored

  /* ----- capacity: size(r) is the length of the encoded record ----- */

  function Cost(size: Record -> nat, r: Record): nat {
    if r.phase == Tombstone then size(r) + 64 else RECORD_BYTES
  }

  // The sum of the weights of the records under some keys.
  ghost function Sum(records: Records, keys: set<string>, weight: Record -> int): int
    requires keys <= records.Keys
  {
    if keys == {} then 0
    else
      var k :| k in keys;
      weight(records[k]) + Sum(records, keys - {k}, weight)
  }

  lemma SumRemove(records: Records, keys: set<string>, weight: Record -> int, x: string)
    requires keys <= records.Keys && x in keys
    ensures Sum(records, keys, weight) == weight(records[x]) + Sum(records, keys - {x}, weight)
    decreases keys
  {
    var k :| k in keys && Sum(records, keys, weight) == weight(records[k]) + Sum(records, keys - {k}, weight);
    if k != x {
      SumRemove(records, keys - {k}, weight, x);
      SumRemove(records, keys - {x}, weight, k);
      assert keys - {k} - {x} == keys - {x} - {k};
    }
  }

  // A sum depends on the weights only through the records it adds up.
  lemma SumCompare(records: Records, keys: set<string>, other: Records, weight: Record -> int, heavier: Record -> int)
    requires keys <= records.Keys && keys <= other.Keys
    requires forall k :: k in keys ==> weight(records[k]) <= heavier(other[k])
    ensures Sum(records, keys, weight) <= Sum(other, keys, heavier)
    decreases keys
  {
    if keys != {} {
      var k :| k in keys && Sum(records, keys, weight) == weight(records[k]) + Sum(records, keys - {k}, weight);
      SumRemove(other, keys, heavier, k);
      SumCompare(records, keys - {k}, other, weight, heavier);
    }
  }

  lemma SameSum(records: Records, weight: Record -> int, same: Record -> int)
    requires forall k :: k in records ==> weight(records[k]) == same(records[k])
    ensures Sum(records, records.Keys, weight) == Sum(records, records.Keys, same)
  {
    SumCompare(records, records.Keys, records, weight, same);
    SumCompare(records, records.Keys, records, same, weight);
  }

  ghost function Reserved(size: Record -> nat, records: Records): int {
    1024 + Sum(records, records.Keys, r => Cost(size, r))
  }

  // {"schemaVersion":1,"epoch":"...","records":{"<id>":<record>,...}}
  ghost function EncodedBytes(size: Record -> nat, records: Records): int {
    79 + Sum(records, records.Keys, r => size(r) + 40) - (if records == map[] then 0 else 1)
  }

  ghost predicate Fits(size: Record -> nat, records: Records) {
    && |records| <= MAX_RECORDS
    && Reserved(size, records) <= LEDGER_BYTES
    && (forall id :: id in records ==> size(records[id]) <= RECORD_BYTES)
    && EncodedBytes(size, records) <= LEDGER_BYTES
  }

  ghost function SaveError(size: Record -> nat, records: Records): Option<HandoffError> {
    if |records| > MAX_RECORDS || Reserved(size, records) > LEDGER_BYTES then Some(LedgerCapacity)
    else if exists id :: id in records && size(records[id]) > RECORD_BYTES then Some(RecordCapacity)
    else if EncodedBytes(size, records) > LEDGER_BYTES then Some(LedgerCapacity)
    else None
  }

  /* ----- one transaction, as a function of the stored snapshot ----- */

  predicate Readable(records: Records) {
    forall id :: id in records ==> IsUuid4(id) && records[id].intent.id == id && ValidRecord(records[id])
  }

  function RetainAll(records: Records, clock: Clock): Records {
    map id | id in records :: Retained(records[id], clock.boot, clock.tick(0))
  }

  function NewRecord(id: string, binding: Binding, generation: Option<string>, context: Option<NativeContext>, clock: Clock): Record {
    Record(Intent(id, binding, generation, context, clock.tick(1), clock.utcMs, clock.boot),
           Prepared, NotAttempted, None, [], None, None, None, false, false)
  }

  function Missing(op: Operation): HandoffError {
    match op
    case Mint(f, _) => if AddressOk(f) then AuthorityUnavailable else InvalidReceipt
    case Confirm(f) => if AddressOk(f) then AuthorityUnavailable else InvalidReceipt
    case Receive(f, _, classify) => if ReceiptWireOk(f, classify) then AuthorityUnavailable else InvalidReceipt
    case _ => IdUnknown
  }

  function ApplyChange(epoch: string, records: Records, change: Change, clock: Clock): Result<(Records, Reply), HandoffError> {
    match change
    case Prepare(id, binding, generation, context) => Ok((records[id := NewRecord(id, binding, generation, context, clock)], Done))
    case On(id, op) =>
      if id !in records then Err(Missing(op))
      else (match Apply(epoch, records[id], op, clock)
            case Ok(p) => Ok((records[id := p.0], p.1))
            case Err(e) => Err(e))
    case CollectorStart => Ok((map id | id in records :: AfterCollectorStart(records[id]), Done))
    case QuarantineRestored => Ok((map id | id in records :: AfterQuarantine(records[id]), Done))
  }

  ghost function Transact(size: Record -> nat, epoch: string, records: Records, change: Change, clock: Clock)
    : Result<(Records, Reply), HandoffError>
  {
    if !Readable(records) then Err(LedgerCorrupt)
    else match ApplyChange(epoch, RetainAll(records, clock), change, clock)
         case Err(e) => Err(e)
         case Ok(p) => if SaveError(size, p.0).Some? then Err(SaveError(size, p.0).value) else Ok(p)
  }

  lemma TransactOn(size: Record -> nat, epoch: string, records: Records, id: string, op: Operation, clock: Clock, decided: Outcome)
    requires Readable(records) && id in records
    requires decided == Apply(epoch, Retained(records[id], clock.boot, clock.tick(0)), op, clock)
    ensures Transact(size, epoch, records, On(id, op), clock) ==
      match decided
      case Err(e) => Err(e)
      case Ok(p) =>
        var after := RetainAll(records, clock)[id := p.0];
        if SaveError(size, after).Some? then Err(SaveError(size, after).value) else Ok((after, p.1))
  {
  }

  /* ----- the stored ledger and its transactions ----- */

  class HandoffLedger {
    const epoch: string
    const size: Record -> nat
    var records: Records

    constructor Initialize(epoch: string, size: Record -> nat)
      ensures this.epoch == epoch && this.size == size && records == map[]
    {
      this.epoch, this.size, records := epoch, size, map[];
    }

    // The stored state is what Transact makes of the previous one; a refused
    // transaction leaves the file as it was.
    ghost predicate Committed(before: Records, change: Change, clock: Clock, result: Result<Reply, HandoffError>)
      reads this
    {
      match Transact(size, epoch, before, change, clock)
      case Ok(p) => records == p.0 && result == Ok(p.1)
      case Err(e) => records == before && result == Err(e)
    }

    // Read the snapshot, check every record, expire old detail.
    method Open(clock: Clock) returns (state: Result<Records, HandoffError>)
      ensures state == if Readable(records) then Ok(RetainAll(records, clock)) else Err(LedgerCorrupt)
    {
      var todo := records.Keys;
      while todo != {}
        invariant todo <= records.Keys
        invariant forall id :: id in records.Keys - todo ==>
          IsUuid4(id) && records[id].intent.id == id && ValidRecord(records[id])
      {
        var id :| id in todo;
        if !(IsUuid4(id) && records[id].intent.id == id && ValidRecord(records[id])) {
          return Err(LedgerCorrupt);
        }
        todo := todo - {id};
      }
      var kept := Expire(clock);
      state := Ok(kept);
    }

    // Old records become tombstones.
    method Expire(clock: Clock) returns (kept: Records)
      ensures kept == RetainAll(records, clock)
    {
      kept := records;
      if clock.boot.Some? {
        var todo := records.Keys;
        while todo != {}
          invariant todo <= records.Keys == kept.Keys
          invariant forall id :: id in records ==>
            kept[id] == if id in todo then records[id] else Retained(records[id], clock.boot, clock.tick(0))
        {
          var id :| id in todo;
          var r := kept[id];
          if r.phase != Tombstone && r.intent.historyBoot == clock.boot && clock.tick(0) >= r.intent.createdNs + RETENTION_NS {
            r := r.(phase := Tombstone, submission := Unknown, native := None, waits := [], ack := None,
                    capability := None, pendingReceipt := None, observe := false, ackRequested := false);
            kept := kept[id := r];
          }
          todo := todo - {id};
        }
      }
    }

    method ReservedBytes(state: Records) returns (reserved: int)
      ensures reserved == Reserved(size, state)
    {
      reserved := 1024;
      var todo := state.Keys;
      ghost var cost: Record -> int := r => Cost(size, r);
      while todo != {}
        invariant todo <= state.Keys
        invariant reserved + Sum(state, todo, cost) == 1024 + Sum(state, state.Keys, cost)
      {
        var id :| id in todo;
        var r := state[id];
        SumRemove(state, todo, cost, id);
        assert cost(r) == Cost(size, r);
        reserved := reserved + (if r.phase == Tombstone then size(r) + 64 else RECORD_BYTES);
        todo := todo - {id};
      }
      SameSum(state, cost, r => Cost(size, r));
    }

    method EncodedLength(state: Records) returns (encoded: int)
      ensures encoded == EncodedBytes(size, state)
    {
      encoded := 79;
      var todo := state.Keys;
      ghost var bytes: Record -> int := r => size(r) + 40;
      while todo != {}
        invariant todo <= state.Keys
        invariant encoded + Sum(state, todo, bytes) == 79 + Sum(state, state.Keys, bytes)
      {
        var id :| id in todo;
        SumRemove(state, todo, bytes, id);
        assert bytes(state[id]) == size(state[id]) + 40;
        encoded := encoded + size(state[id]) + 40;
        todo := todo - {id};
      }
      SameSum(state, bytes, r => size(r) + 40);
      // One comma fewer than records.
      if state != map[] {
        encoded := encoded - 1;
      }
    }

    method Oversized(state: Records) returns (oversized: bool)
      ensures oversized <==> exists id :: id in state && size(state[id]) > RECORD_BYTES
    {
      var todo := state.Keys;
      while todo != {}
        invariant todo <= state.Keys
        invariant forall id :: id in state.Keys - todo ==> size(state[id]) <= RECORD_BYTES
      {
        var id :| id in todo;
        if size(state[id]) > RECORD_BYTES {
          return true;
        }
        todo := todo - {id};
      }
      oversized := false;
    }

    method Save(state: Records) returns (failed: Option<HandoffError>)
      modifies this`records
      ensures failed == SaveError(size, state)
      ensures records == if failed.None? then state else old(records)
    {
      var reserved := ReservedBytes(state);
      if |state| > MAX_RECORDS || reserved > LEDGER_BYTES {
        return Some(LedgerCapacity);
      }
      var oversized := Oversized(state);
      if oversized {
        return Some(RecordCapacity);
      }
      var encoded := EncodedLength(state);
      if encoded > LEDGER_BYTES {
        return Some(LedgerCapacity);
      }
      records := state;
      failed := None;
    }

    // Finish a transaction on one record: save what was decided, or nothing.
    method Store(id: string, ghost op: Operation, decided: Outcome, snapshot: Records, clock: Clock)
      returns (result: Result<Reply, HandoffError>)
      requires Readable(records) && snapshot == RetainAll(records, clock) && id in snapshot
      requires decided == Apply(epoch, snapshot[id], op, clock)
      modifies this`records
      ensures Committed(old(records), On(id, op), clock, result)
    {
      TransactOn(size, epoch, records, id, op, clock, decided);
      if decided.Err? {
        return Err(decided.error);
      }
      var failed := Save(snapshot[id := decided.value.0]);
      result := if failed.Some? then Err(failed.value) else Ok(decided.value.1);
    }

    // Open the snapshot for one record.
    method OpenFor(id: string, ghost op: Operation, clock: Clock) returns (state: Result<Records, HandoffError>)
      requires Missing(op) == IdUnknown
      ensures state.Err? ==> Transact(size, epoch, records, On(id, op), clock) == Err(state.error)
      ensures state.Ok? ==> Readable(records) && state.value == RetainAll(records, clock) && id in state.value
    {
      state := Open(clock);
      hide Readable, RetainAll, Apply, SaveError;
      if state.Ok? && id !in state.value {
        state := Err(IdUnknown);
      }
    }

    /* ----- preparation and the effect fence ----- */

    method PrepareIntent(id: string, binding: Binding, generation: Option<string>, context: Option<NativeContext>, clock: Clock)
      returns (result: Result<Reply, HandoffError>)
      modifies this`records
      ensures Committed(old(records), Prepare(id, binding, generation, context), clock, result)
    {
      var snapshot := Open(clock);
      if snapshot.Err? { return Err(snapshot.error); }
      var state := snapshot.value[id := NewRecord(id, binding, generation, context, clock)];
      var failed := Save(state);
      result := if failed.Some? then Err(failed.value) else Ok(Done);
    }

    method ResumeIntent(id: string, binding: Binding, generation: Option<string>, context: Option<NativeContext>, clock: Clock)
      returns (result: Result<Reply, HandoffError>)
      modifies this`records
      ensures Committed(old(records), On(id, Resume(binding, generation, context)), clock, result)
    {
      hide Transact, Readable, RetainAll;
      var snapshot := OpenFor(id, Resume(binding, generation, context), clock);
      if snapshot.Err? { return Err(snapshot.error); }
      var decided := CheckResume(snapshot.value[id], binding, generation, context);
      result := Store(id, Resume(binding, generation, context), decided, snapshot.value, clock);
    }

    method CheckResume(record: Record, binding: Binding, generation: Option<string>, context: Option<NativeContext>) returns (r: Outcome)
      ensures r == DoResume(record, binding, generation, context)
    {
      if record.intent.binding != binding || record.intent.generation != generation { return Err(BindingConflict); }
      if record.phase != Prepared { return Err(AlreadyAttempted); }
      if record.intent.nativeContext != context { return Err(NativeContextChanged); }
      r := Ok((record, Done));
    }

    method BeginAttempt(id: string, observe: bool, ackRequested: bool, cutoffNs: int, wait: Option<WaitRequest>, clock: Clock)
      returns (result: Result<Reply, HandoffError>)
      modifies this`records
      ensures Committed(old(records), On(id, Attempt(observe, ackRequested, cutoffNs, wait)), clock, result)
    {
      hide Transact, Readable, RetainAll;
      var snapshot := OpenFor(id, Attempt(observe, ackRequested, cutoffNs, wait), clock);
      if snapshot.Err? { return Err(snapshot.error); }
      var decided := MarkAttempted(snapshot.value[id], observe, ackRequested, cutoffNs, wait, clock);
      result := Store(id, Attempt(observe, ackRequested, cutoffNs, wait), decided, snapshot.value, clock);
    }

    method MarkAttempted(before: Record, observe: bool, ackRequested: bool, cutoffNs: int, wait: Option<WaitRequest>, clock: Clock) returns (r: Outcome)
      ensures r == DoAttempt(before, observe, ackRequested, cutoffNs, wait, clock)
    {
      if before.phase != Prepared { return Err(AlreadyAttempted); }
      if clock.tick(1) >= cutoffNs { return Err(DeadlinePassed); }
      var record := before.(phase := Attempted, submission := Unknown, observe := observe, ackRequested := ackRequested);
      if wait.Some? {
        var added := AppendWait(record, wait.value, None, None);
        if added.Err? { return Err(added.error); }
        record := added.value;
      }
      r := Ok((record, Done));
    }

    method CommitOutcome(id: string, submission: Submission, native: Native, remote: bool, ownWait: Option<string>, interrupted: bool, clock: Clock)
      returns (result: Result<Reply, HandoffError>)
      modifies this`records
      ensures Committed(old(records), On(id, Commit(submission, native, remote, ownWait, interrupted)), clock, result)
    {
      hide Transact, Readable, RetainAll;
      var snapshot := OpenFor(id, Commit(submission, native, remote, ownWait, interrupted), clock);
      if snapshot.Err? { return Err(snapshot.error); }
      var decided := MarkTerminal(snapshot.value[id], submission, native, remote, ownWait, interrupted);
      result := Store(id, Commit(submission, native, remote, ownWait, interrupted), decided, snapshot.value, clock);
    }

    // The phase is not tested again: the caller owns the attempt.
    method MarkTerminal(before: Record, submission: Submission, native: Native, remote: bool, ownWait: Option<string>, interrupted: bool) returns (r: Outcome)
      ensures r == DoCommit(before, submission, native, remote, ownWait, interrupted)
    {
      var record := before.(phase := Terminal, native := Some(native), submission := submission);
      if !remote && submission != Submitted {
        if record.capability.Some? {
          record := record.(capability := Some(record.capability.value.(revoked := true)));
        }
        if ownWait.Some? {
          var k := FindOwn(record.waits, ownWait.value);
          if k.None? { return Err(UncaughtStopIteration); }
          if record.waits[k.value].status == Pending {
            record := SetStatus(record, k.value, if interrupted then Stopped else Failed,
                                Some(if interrupted then StoppedByOperator else EvidenceFailed));
          }
        }
      }
      r := Ok((record, Done));
    }

    method RefuseSend(id: string, observe: bool, ackRequested: bool, reason: WaitReason, wait: Option<WaitRequest>, clock: Clock)
      returns (result: Result<Reply, HandoffError>)
      modifies this`records
      ensures Committed(old(records), On(id, Operation.Refuse(observe, ackRequested, reason, wait)), clock, result)
    {
      hide Transact, Readable, RetainAll;
      var snapshot := OpenFor(id, Operation.Refuse(observe, ackRequested, reason, wait), clock);
      if snapshot.Err? { return Err(snapshot.error); }
      var decided := MarkRefused(snapshot.value[id], observe, ackRequested, reason, wait);
      result := Store(id, Operation.Refuse(observe, ackRequested, reason, wait), decided, snapshot.value, clock);
    }

    method MarkRefused(before: Record, observe: bool, ackRequested: bool, reason: WaitReason, wait: Option<WaitRequest>) returns (r: Outcome)
      ensures r == DoRefuse(before, observe, ackRequested, reason, wait)
    {
      if before.phase != Prepared { return Err(AlreadyAttempted); }
      var record := before.(phase := Terminal, submission := Refused, observe := observe, ackRequested := ackRequested);
      if wait.Some? {
        var added := AppendWait(record, wait.value, Some(if reason == EvidenceUnsupported then Unsupported else Failed), Some(reason));
        if added.Err? { return Err(added.error); }
        record := added.value;
      }
      if record.capability.Some? {
        record := record.(capability := Some(record.capability.value.(revoked := true)));
      }
      r := Ok((record, Done));
    }

    /* ----- waits ----- */

    method AppendWait(record: Record, q: WaitRequest, initial: Option<WaitStatus>, reason: Option<WaitReason>)
      returns (r: Result<Record, HandoffError>)
      ensures r == AddWait(record, q, initial, reason)
    {
      if |record.waits| >= MAX_WAITS { return Err(WaitCapacity); }
      var supported := Supported(record, q.goal);
      var status := if initial.Some? then initial.value else if supported then Pending else Unsupported;
      var wait := Wait(q.goal, status, q.operationId, q.deadlineAtUtcMs, q.deadlineNs, q.clockEpoch, None);
      if reason.Some? {
        wait := wait.(reason := reason);
      } else if !supported {
        wait := wait.(reason := Some(EvidenceUnsupported));
      }
      r := Ok(record.(waits := record.waits + [wait]));
    }

    method FindOwn(waits: seq<Wait>, operation: string) returns (k: Option<nat>)
      ensures k == FindWait(waits, operation)
    {
      for i := 0 to |waits|
        invariant forall j :: 0 <= j < i ==> waits[j].operationId != operation
      {
        if waits[i].operationId == operation { return Some(i); }
      }
      k := None;
    }

    method BeginWait(id: string, q: WaitRequest, budgeted: bool, verified: Option<string>, clock: Clock)
      returns (result: Result<Reply, HandoffError>)
      modifies this`records
      ensures Committed(old(records), On(id, StartWait(q, budgeted, verified)), clock, result)
    {
      hide Transact, Readable, RetainAll;
      var snapshot := OpenFor(id, StartWait(q, budgeted, verified), clock);
      if snapshot.Err? { return Err(snapshot.error); }
      var decided := AddOwnWait(snapshot.value[id], q, budgeted, verified);
      result := Store(id, StartWait(q, budgeted, verified), decided, snapshot.value, clock);
    }

    method AddOwnWait(record: Record, q: WaitRequest, budgeted: bool, verified: Option<string>) returns (r: Outcome)
      ensures r == DoStartWait(record, q, budgeted, verified)
    {
      var unavailable := record.ack.None? && record.capability.Some? && verified != Some(record.capability.value.clockEpoch);
      var added := AppendWait(record, q.(clockEpoch := verified),
        if !budgeted || unavailable then Some(Failed) else None,
        if !budgeted then Some(InsufficientBudget) else if unavailable then Some(HistoryUnavailable) else None);
      if added.Err? { return Err(added.error); }
      r := Ok((added.value, Done));
    }

    method Poll(id: string, operation: string, verified: Option<string>, nowNs: int, deadlineNs: int, clock: Clock)
      returns (result: Result<Reply, HandoffError>)
      modifies this`records
      ensures Committed(old(records), On(id, PollWait(operation, verified, nowNs, deadlineNs)), clock, result)
    {
      hide Transact, Readable, RetainAll;
      var snapshot := OpenFor(id, PollWait(operation, verified, nowNs, deadlineNs), clock);
      if snapshot.Err? { return Err(snapshot.error); }
      var decided := PollOwnWait(snapshot.value[id], operation, verified, nowNs, deadlineNs);
      result := Store(id, PollWait(operation, verified, nowNs, deadlineNs), decided, snapshot.value, clock);
    }

    method PollOwnWait(record: Record, operation: string, verified: Option<string>, nowNs: int, deadlineNs: int) returns (r: Outcome)
      ensures r == DoPollWait(record, operation, verified, nowNs, deadlineNs)
    {
      var k := FindOwn(record.waits, operation);
      if k.None? { return Err(UncaughtStopIteration); }
      var current := record.waits[k.value];
      if current.status != Pending { return Ok((record, Done)); }
      if record.ack.Some? {
        current := current.(status := Satisfied);
      } else if verified.None? || current.clockEpoch != verified {
        current := current.(status := Failed, reason := Some(HistoryUnavailable));
      } else if nowNs >= deadlineNs {
        current := current.(status := TimedOutUnknown);
      } else {
        return Ok((record, Done));
      }
      r := Ok((record.(waits := record.waits[k.value := current]), Done));
    }

    method Stop(id: string, operation: string, clock: Clock)
      returns (result: Result<Reply, HandoffError>)
      modifies this`records
      ensures Committed(old(records), On(id, StopWait(operation)), clock, result)
    {
      hide Transact, Readable, RetainAll;
      var snapshot := OpenFor(id, StopWait(operation), clock);
      if snapshot.Err? { return Err(snapshot.error); }
      var decided := StopOwnWait(snapshot.value[id], operation);
      result := Store(id, StopWait(operation), decided, snapshot.value, clock);
    }

    method StopOwnWait(record: Record, operation: string) returns (r: Outcome)
      ensures r == DoStopWait(record, operation)
    {
      var k := FindOwn(record.waits, operation);
      if k.None? { return Err(UncaughtStopIteration); }
      if record.waits[k.value].status != Pending { return Ok((record, Done)); }
      r := Ok((SetStatus(record, k.value, Stopped, Some(StoppedByOperator)), Done));
    }

    /* ----- receipts, confirmation and revocation ----- */

    method MintCapability(f: Frame, collector: string, clock: Clock)
      returns (result: Result<Reply, HandoffError>)
      modifies this`records
      ensures Committed(old(records), On(f.correlationId, Mint(f, collector)), clock, result)
    {
      var snapshot := Open(clock);
      if snapshot.Err? { return Err(snapshot.error); }
      if !AddressOk(f) { return Err(InvalidReceipt); }
      if f.correlationId !in snapshot.value { return Err(AuthorityUnavailable); }
      var decided := MintFor(snapshot.value[f.correlationId], f, collector, clock);
      result := Store(f.correlationId, Mint(f, collector), decided, snapshot.value, clock);
    }

    method MintFor(record: Record, f: Frame, collector: string, clock: Clock) returns (r: Outcome)
      ensures r == DoMint(epoch, record, f, collector, clock)
    {
      if !AddressOk(f) { return Err(InvalidReceipt); }
      if epoch != f.ledgerEpoch || record.intent.generation != Some(f.generation)
         || record.phase != Prepared || record.capability.Some? {
        return Err(AuthorityUnavailable);
      }
      var now := clock.tick(1);
      if record.intent.historyBoot.None? || record.intent.historyBoot != clock.boot
         || now < record.intent.createdNs || now >= record.intent.createdNs + DAY_NS {
        return Err(AuthorityExpired);
      }
      var hash := CapabilityHash(epoch, record.intent.id, f.generation, f.token);
      r := Ok((record.(capability := Some(Capability(hash, collector, record.intent.createdNs + DAY_NS, false))),
               Minted(f.token, collector)));
    }

    method Collect(f: Frame, collector: string, classify: bool, clock: Clock)
      returns (result: Result<Reply, HandoffError>)
      modifies this`records
      ensures Committed(old(records), On(f.correlationId, Receive(f, collector, classify)), clock, result)
    {
      var snapshot := Open(clock);
      if snapshot.Err? { return Err(snapshot.error); }
      if !ReceiptWireOk(f, classify) { return Err(InvalidReceipt); }
      if f.correlationId !in snapshot.value { return Err(AuthorityUnavailable); }
      var decided := Accept(snapshot.value[f.correlationId], f, collector, classify, clock);
      result := Store(f.correlationId, Receive(f, collector, classify), decided, snapshot.value, clock);
    }

    method Accept(before: Record, f: Frame, collector: string, classify: bool, clock: Clock) returns (r: Outcome)
      ensures r == DoReceive(epoch, before, f, collector, classify, clock)
    {
      if !ReceiptWireOk(f, classify) { return Err(InvalidReceipt); }
      var record := before;
      var cap := record.capability;
      if epoch != f.ledgerEpoch || record.intent.generation != Some(f.generation)
         || cap.None? || cap.value.revoked
         || cap.value.hash != CapabilityHash(epoch, record.intent.id, f.generation, f.token) {
        return Err(AuthorityUnavailable);
      }
      if record.ack.Some? {
        if record.ack.value.assurance != TokenPossession || (!classify && record.ack.value.receiptId != Some(f.receiptId)) {
          return Err(ReceiptConflict);
        }
        return Ok((record, Receipt(true, false)));
      }
      if cap.value.clockEpoch != collector || clock.tick(1) >= cap.value.expiresNs { return Err(AuthorityExpired); }
      var pending := record.pendingReceipt;
      if classify && pending.None? { return Ok((record, Receipt(false, false))); }
      if !classify && pending.Some? && pending.value.receiptId != f.receiptId { return Err(ReceiptConflict); }
      if record.submission != Submitted {
        if !classify && record.phase == Attempted && pending.None? {
          record := record.(pendingReceipt := Some(PendingReceipt(f.receiptId, collector, clock.tick(2), clock.utcMs)));
        }
        if record.pendingReceipt.Some? && record.phase == Attempted { return Ok((record, Receipt(pending.Some?, true))); }
        return Err(SubmissionUnconfirmed);
      }
      if record.waits != [] && record.waits[0].clockEpoch != Some(collector) { return Err(OrderUnprovable); }
      if pending.Some? && pending.value.clockEpoch != collector { return Err(OrderUnprovable); }
      var late := record.waits != [] && clock.tick(2) >= record.waits[0].deadlineNs;
      var receiptId := if pending.Some? then pending.value.receiptId else f.receiptId;
      record := record.(ack := Some(Ack(TokenPossession, clock.utcMs, late, Some(receiptId), Some(collector))), pendingReceipt := None);
      var waits := SettleWaits(record.waits, collector, clock);
      assert waits == Acknowledge(before, receiptId, collector, clock).waits;
      r := Ok((record.(waits := waits), Receipt(false, false)));
    }

    // A wait that already ended keeps its status.
    method SettleWaits(before: seq<Wait>, collector: string, clock: Clock) returns (waits: seq<Wait>)
      ensures waits == seq(|before|, i requires 0 <= i < |before| => ClassifyWait(before[i], collector, clock.tick(3 + i)))
    {
      waits := before;
      for i := 0 to |before|
        invariant |waits| == |before|
        invariant forall k :: 0 <= k < i ==> waits[k] == ClassifyWait(before[k], collector, clock.tick(3 + k))
        invariant forall k :: i <= k < |before| ==> waits[k] == before[k]
      {
        if waits[i].status == Pending && waits[i].clockEpoch == Some(collector) {
          var status := if clock.tick(3 + i) >= waits[i].deadlineNs then TimedOutUnknown else Satisfied;
          waits := waits[i := waits[i].(status := status)];
        }
      }
    }

    method ConfirmByOperator(f: Frame, clock: Clock)
      returns (result: Result<Reply, HandoffError>)
      modifies this`records
      ensures Committed(old(records), On(f.correlationId, Confirm(f)), clock, result)
    {
      var snapshot := Open(clock);
      if snapshot.Err? { return Err(snapshot.error); }
      if !AddressOk(f) { return Err(InvalidReceipt); }
      if f.correlationId !in snapshot.value { return Err(AuthorityUnavailable); }
      var decided := ConfirmRecord(snapshot.value[f.correlationId], f, clock);
      result := Store(f.correlationId, Confirm(f), decided, snapshot.value, clock);
    }

    method ConfirmRecord(record: Record, f: Frame, clock: Clock) returns (r: Outcome)
      ensures r == DoConfirm(epoch, record, f, clock)
    {
      if !AddressOk(f) { return Err(InvalidReceipt); }
      if epoch != f.ledgerEpoch || record.intent.generation != Some(f.generation) { return Err(AuthorityUnavailable); }
      if record.submission != Submitted { return Err(SubmissionUnconfirmed); }
      if record.ack.Some? { return Ok((record, Done)); }
      if record.waits != [] && record.waits[0].status != TimedOutUnknown { return Err(OrderUnprovable); }
      r := Ok((record.(ack := Some(Ack(OperatorConfirmed, clock.utcMs, record.waits != [], None, None))), Done));
    }

    method RevokeCapability(id: string, clock: Clock)
      returns (result: Result<Reply, HandoffError>)
      modifies this`records
      ensures Committed(old(records), On(id, Revoke), clock, result)
    {
      hide Transact, Readable, RetainAll;
      var snapshot := OpenFor(id, Revoke, clock);
      if snapshot.Err? { return Err(snapshot.error); }
      var record := RevokeRecord(snapshot.value[id]);
      var decided := Ok((record, Done));
      result := Store(id, Revoke, decided, snapshot.value, clock);
    }

    method RevokeRecord(before: Record) returns (record: Record)
      ensures record == before.(capability := Revoked(before.capability))
    {
      record := before;
      if record.capability.Some? {
        record := record.(capability := Some(record.capability.value.(revoked := true)));
      }
    }

    method Look(id: string, clock: Clock) returns (result: Result<Reply, HandoffError>)
      modifies this`records
      ensures Committed(old(records), On(id, Read), clock, result)
    {
      hide Transact, Readable, RetainAll;
      var snapshot := OpenFor(id, Read, clock);
      if snapshot.Err? { return Err(snapshot.error); }
      result := Store(id, Read, Ok((snapshot.value[id], Done)), snapshot.value, clock);
    }

    /* ----- operations on every record ----- */

    // A restarted collector expires the authority that was never used.
    method StartCollector(clock: Clock) returns (result: Result<Reply, HandoffError>)
      modifies this`records
      ensures Committed(old(records), CollectorStart, clock, result)
    {
      var snapshot := Open(clock);
      if snapshot.Err? { return Err(snapshot.error); }
      var state := ExpireUnused(snapshot.value);
      var failed := Save(state);
      result := if failed.Some? then Err(failed.value) else Ok(Done);
    }

    method ExpireUnused(before: Records) returns (state: Records)
      ensures state == map id | id in before :: AfterCollectorStart(before[id])
    {
      state := before;
      var todo := before.Keys;
      while todo != {}
        invariant todo <= before.Keys == state.Keys
        invariant forall id :: id in state ==> state[id] == if id in todo then before[id] else AfterCollectorStart(before[id])
      {
        var id :| id in todo;
        var record := state[id];
        if record.capability.Some? && record.ack.None? {
          state := state[id := record.(capability := Some(record.capability.value.(revoked := true)))];
        }
        todo := todo - {id};
      }
    }

    method Quarantine(clock: Clock) returns (result: Result<Reply, HandoffError>)
      modifies this`records
      ensures Committed(old(records), QuarantineRestored, clock, result)
    {
      var snapshot := Open(clock);
      if snapshot.Err? { return Err(snapshot.error); }
      var state := QuarantineAll(snapshot.value);
      var failed := Save(state);
      result := if failed.Some? then Err(failed.value) else Ok(Done);
    }

    method QuarantineAll(before: Records) returns (state: Records)
      ensures state == map id | id in before :: AfterQuarantine(before[id])
    {
      state := before;
      var todo := before.Keys;
      while todo != {}
        invariant todo <= before.Keys == state.Keys
        invariant forall id :: id in state ==> state[id] == if id in todo then before[id] else AfterQuarantine(before[id])
      {
        var id :| id in todo;
        var record := QuarantineRecord(state[id]);
        state := state[id := record];
        todo := todo - {id};
      }
    }

    method QuarantineRecord(before: Record) returns (record: Record)
      ensures record == AfterQuarantine(before)
    {
      record := before.(phase := Quarantined, submission := Unknown, native := None, ack := None, pendingReceipt := None);
      if record.capability.Some? {
        record := record.(capability := Some(record.capability.value.(revoked := true)));
      }
      var waits := record.waits;
      for i := 0 to |waits|
        invariant |waits| == |before.waits|
        invariant forall k :: 0 <= k < i ==> waits[k] == FailPending(before.waits[k])
        invariant forall k :: i <= k < |waits| ==> waits[k] == before.waits[k]
      {
        if waits[i].status == Pending {
          waits := waits[i := waits[i].(status := Failed, reason := Some(HistoryUnavailable))];
        }
      }
      assert waits == AfterQuarantine(before).waits;
      record := record.(waits := waits);
    }
  }
}
