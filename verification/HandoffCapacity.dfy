/** Reserved record space: when what was admitted can be finished (session_peer_core/handoff.py). */
module HandoffCapacity {
  import opened Text
  import opened HandoffRecord
  import opened HandoffSteps
  import opened HandoffLedger

  lemma SaveErrorIffDoesNotFit(size: Record -> nat, records: Records)
    ensures SaveError(size, records).None? <==> Fits(size, records)
  {
  }

  // The records of an admitted snapshot may be rewritten in place: tombstones
  // stay, any other record may change or become a tombstone within the bytes
  // that leave room for its key.
  predicate Rewrites(size: Record -> nat, before: Records, after: Records) {
    && after.Keys == before.Keys
    && forall id :: id in before ==>
         || after[id] == before[id]
         || (before[id].phase != Tombstone && size(after[id]) <= RECORD_BYTES - 64)
  }

  lemma RewriteNeedsNoMoreReserve(size: Record -> nat, before: Records, after: Records)
    requires Rewrites(size, before, after)
    ensures Reserved(size, after) <= Reserved(size, before)
  {
    SumCompare(after, after.Keys, before, r => Cost(size, r), r => Cost(size, r));
  }

  // The reserve never stands in the way; only the length of the whole text can.
  lemma RewriteFitsIff(size: Record -> nat, before: Records, after: Records)
    requires Fits(size, before) && Rewrites(size, before, after)
    ensures Fits(size, after) <==> EncodedBytes(size, after) <= LEDGER_BYTES
  {
    RewriteNeedsNoMoreReserve(size, before, after);
    assert after.Keys == before.Keys;
    assert |after| == |after.Keys| == |before.Keys| == |before|;
  }

  // And it cannot when live records leave room for a key, quotes, colon and comma.
  lemma EncodedWithinReserve(size: Record -> nat, records: Records)
    requires forall id :: id in records && records[id].phase != Tombstone ==> size(records[id]) <= RECORD_BYTES - 40
    ensures EncodedBytes(size, records) <= Reserved(size, records)
  {
    SumCompare(records, records.Keys, records, r => size(r) + 40, r => Cost(size, r));
  }

  // A saved snapshot may be rewritten in place when every live record it then
  // has, untouched ones included, leaves 40 bytes, and every rewritten one 64.
  // HandoffRoom says which intents make that always so, HandoffOverflow what
  // happens otherwise.
  lemma StartedWorkCanBeSaved(size: Record -> nat, before: Records, after: Records)
    requires Fits(size, before) && Rewrites(size, before, after)
    requires forall id :: id in after && after[id].phase != Tombstone ==> size(after[id]) <= RECORD_BYTES - 40
    ensures SaveError(size, after).None?
  {
    RewriteNeedsNoMoreReserve(size, before, after);
    EncodedWithinReserve(size, after);
    RewriteFitsIff(size, before, after);
    SaveErrorIffDoesNotFit(size, after);
  }

  // A terminal commit to a live record is saved when every live record of the
  // snapshot leaves 64 bytes afterwards.
  lemma CommitFitsWhenRecordsDo(size: Record -> nat, epoch: string, records: Records, id: string, op: Operation, clock: Clock)
    requires Readable(records) && Fits(size, records)
    requires id in records && records[id].phase != Tombstone && op.Commit?
    requires ApplyChange(epoch, RetainAll(records, clock), On(id, op), clock).Ok?
    requires forall k :: k in records && records[k].phase != Tombstone ==>
      size(ApplyChange(epoch, RetainAll(records, clock), On(id, op), clock).value.0[k]) <= RECORD_BYTES - 64
    ensures Transact(size, epoch, records, On(id, op), clock).Ok?
  {
    hide Apply, ValidRecord, SaveError, Fits;
    var after := ApplyChange(epoch, RetainAll(records, clock), On(id, op), clock).value.0;
    forall k | k in records && records[k].phase == Tombstone ensures after[k] == records[k] { }
    StartedWorkCanBeSaved(size, records, after);
  }
}
