/** Which started work the ledger's limits can refuse to save, with the real
    length of every record (session_peer_core/handoff.py). */
module HandoffRoom {
  import opened Text
  import opened Sequences
  import opened Json
  import opened HandoffRecord
  import opened HandoffSteps
  import opened HandoffInvariant
  import opened HandoffProgress
  import opened HandoffLedger
  import opened HandoffRuns
  import opened HandoffCapacity
  import opened HandoffBytes

  /* ----- work that is never refused ----- */

  predicate AllRoomy(records: Records) {
    forall id :: id in records && records[id].phase != Tombstone ==> Roomy(records[id].intent)
  }

  // A change that neither adds a record nor brings a tombstone back to life.
  predicate Reserves(records: Records, change: Change) {
    match change
    case Prepare(_, _, _, _) => false
    case On(id, _) => id in records ==> records[id].phase != Tombstone
    case CollectorStart => true
    case QuarantineRestored => forall id :: id in records ==> records[id].phase != Tombstone
  }

  lemma RoomyRecord(r: Record)
    requires ValidRecord(r) && Roomy(r.intent)
    ensures RecordBytes(r) <= RECORD_BYTES - 64
  {
    FactsAreBounded(r);
  }

  // What a change makes of a snapshot, when it succeeds.
  function After(epoch: string, records: Records, change: Change, clock: Clock): Records
    requires ApplyChange(epoch, RetainAll(records, clock), change, clock).Ok?
  {
    ApplyChange(epoch, RetainAll(records, clock), change, clock).value.0
  }

  // A tombstone carries nothing that expires or that a collector revokes.
  lemma TombstoneStays(epoch: string, records: Records, change: Change, clock: Clock, id: string)
    requires id in records && records[id].phase == Tombstone && records[id].capability.None? && Reserves(records, change)
    requires ApplyChange(epoch, RetainAll(records, clock), change, clock).Ok?
    ensures id in After(epoch, records, change, clock) && After(epoch, records, change, clock)[id] == records[id]
  {
    hide Apply;
  }

  lemma RecordAfterwards(epoch: string, records: Records, change: Change, clock: Clock, id: string)
    requires AllStrong(records) && AllRoomy(records) && ClockOk(clock) && id in records
    requires Acceptable(records, change, clock) && Reserves(records, change)
    requires ApplyChange(epoch, RetainAll(records, clock), change, clock).Ok?
    ensures id in After(epoch, records, change, clock)
    ensures Kept(records[id], After(epoch, records, change, clock)[id])
  {
    hide ApplyChange, RetainAll, Acceptable, Reserves, Roomy;
    assert Strong(records[id]);
    if records[id].phase == Tombstone {
      TombstoneStays(epoch, records, change, clock, id);
    } else {
      StepOnOld(epoch, records, change, clock, id);
      hide ValidRecord, RecordBytes, Advances;
      RoomyRecord(After(epoch, records, change, clock)[id]);
    }
  }

  // A tombstone as it was, or a record that leaves room for its key.
  predicate Kept(before: Record, after: Record) {
    if before.phase == Tombstone then after == before else RecordBytes(after) <= RECORD_BYTES - 64
  }

  lemma KeptIsRewritten(before: Records, after: Records)
    requires after.Keys == before.Keys && forall id :: id in before ==> Kept(before[id], after[id])
    ensures Rewrites(RecordBytes, before, after)
    ensures forall id :: id in after && after[id].phase != Tombstone ==> RecordBytes(after[id]) <= RECORD_BYTES - 40
  {
    hide RecordBytes;
  }

  lemma SameKeys(epoch: string, records: Records, change: Change, clock: Clock)
    requires ApplyChange(epoch, RetainAll(records, clock), change, clock).Ok? && Reserves(records, change)
    ensures After(epoch, records, change, clock).Keys == records.Keys
  {
    hide ApplyChange, RetainAll;
    ChangeKeys(epoch, records, change, clock);
  }

  lemma ChangeRewrites(epoch: string, records: Records, change: Change, clock: Clock)
    requires AllStrong(records) && AllRoomy(records) && ClockOk(clock)
    requires Acceptable(records, change, clock) && Reserves(records, change)
    requires ApplyChange(epoch, RetainAll(records, clock), change, clock).Ok?
    ensures var after := After(epoch, records, change, clock);
      && Rewrites(RecordBytes, records, after)
      && forall id :: id in after && after[id].phase != Tombstone ==> RecordBytes(after[id]) <= RECORD_BYTES - 40
  {
    hide *;
    var after := After(epoch, records, change, clock);
    SameKeys(epoch, records, change, clock);
    forall id | id in records ensures Kept(records[id], after[id]) {
      RecordAfterwards(epoch, records, change, clock, id);
    }
    KeptIsRewritten(records, after);
  }

  // Once a snapshot was saved in which every live intent leaves room, no later
  // change to it is refused for space, whatever happens to those intents: the
  // transaction ends as the change itself does.
  lemma RoomyWorkIsNeverRefused(epoch: string, records: Records, change: Change, clock: Clock)
    requires AllStrong(records) && Fits(RecordBytes, records) && AllRoomy(records) && ClockOk(clock)
    requires Acceptable(records, change, clock) && Reserves(records, change)
    ensures Transact(RecordBytes, epoch, records, change, clock)
         == ApplyChange(epoch, RetainAll(records, clock), change, clock)
  {
    hide *;
    StrongIsReadable(records);
    if ApplyChange(epoch, RetainAll(records, clock), change, clock).Ok? {
      ChangeRewrites(epoch, records, change, clock);
      StartedWorkCanBeSaved(RecordBytes, records, After(epoch, records, change, clock));
    }
    SavedChange(RecordBytes, epoch, records, change, clock);
  }

  lemma SavedChange(size: Record -> nat, epoch: string, records: Records, change: Change, clock: Clock)
    requires Readable(records)
    requires ApplyChange(epoch, RetainAll(records, clock), change, clock).Ok? ==>
      SaveError(size, After(epoch, records, change, clock)).None?
    ensures Transact(size, epoch, records, change, clock) == ApplyChange(epoch, RetainAll(records, clock), change, clock)
  {
    hide ApplyChange, RetainAll, Readable, SaveError;
  }

  // For any change, new intents and returning tombstones included: when the
  // live intents it leaves are roomy, only the number of records and the
  // reserve decide.
  lemma RoomyFitsIff(records: Records)
    requires forall id :: id in records ==> ValidRecord(records[id]) && RecordBytes(records[id]) <= RECORD_BYTES
    requires AllRoomy(records)
    ensures Fits(RecordBytes, records) <==> |records| <= MAX_RECORDS && Reserved(RecordBytes, records) <= LEDGER_BYTES
  {
    hide RecordBytes, ValidRecord, Roomy;
    forall id | id in records && records[id].phase != Tombstone ensures RecordBytes(records[id]) <= RECORD_BYTES - 40 {
      RoomyRecord(records[id]);
    }
    EncodedWithinReserve(RecordBytes, records);
  }
}
