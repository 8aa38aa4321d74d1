/** Ledgers in which the terminal commit of started work is refused for space
    (session_peer_core/handoff.py). */
module HandoffOverflow {
  import opened Text
  import opened Sequences
  import opened Json
  import opened HandoffRecord
  import opened HandoffSteps
  import opened HandoffInvariant
  import opened HandoffLedger
  import opened HandoffRuns
  import opened HandoffCapacity
  import opened HandoffBytes

  /* ----- records of any length up to the limit ----- */

  // Quotes are written as two characters.
  function Quotes(n: nat): string { Repeated('"', n) }

  function PaddedIntent(id: string, t: nat, q: nat, p: nat): Intent {
    Intent(id, Binding("a", Repeated(Quotes(256), 32), Quotes(t), Some(Quotes(q) + Repeated('a', p)), Repeated('a', 64)),
           None, None, 0, 0, None)
  }

  // An attempt whose sender has not committed yet.
  function Padded(id: string, t: nat, q: nat, p: nat): Record {
    Record(PaddedIntent(id, t, q, p), Attempted, Unknown, None, [], None, None, None, false, false)
  }

  lemma {:induction false} AsciiLength(s: string)
    requires forall i :: 0 <= i < |s| ==> s[i] as int < 128
    ensures Utf8Length(s) == |s|
  {
    if s != [] {
      AsciiLength(s[1..]);
    }
  }

  lemma AsciiIdentifier(s: string, limit: nat)
    requires 1 <= |s| <= limit && forall i :: 0 <= i < |s| ==> 32 <= s[i] as int < 127
    ensures IsIdentifier(s, limit)
  {
    AsciiLength(s);
  }

  lemma {:induction false} QuotesText(n: nat)
    ensures JsonChars(Quotes(n)) == 2 * n
  {
    if n > 0 {
      QuotesText(n - 1);
      assert Quotes(n)[1..] == Quotes(n - 1) && Quotes(n)[0] == '"';
    }
  }

  lemma {:induction false} JoinedText(a: string, b: string)
    ensures JsonChars(a + b) == JsonChars(a) + JsonChars(b)
  {
    if a == [] {
      assert a + b == b;
    } else {
      assert (a + b)[1..] == a[1..] + b;
      JoinedText(a[1..], b);
    }
  }

  lemma {:induction false} HostItems(host: string, n: nat)
    requires JsonText(host) == 514
    ensures Items(Repeated(host, n)) == 514 * n
  {
    hide JsonText;
    if n > 0 {
      HostItems(host, n - 1);
      assert Repeated(host, n)[1..] == Repeated(host, n - 1) && Repeated(host, n)[0] == host;
    }
  }

  lemma PaddedIntentText(id: string, t: nat, q: nat, p: nat)
    requires IsUuid4(id)
    ensures IntentText(PaddedIntent(id, t, q, p)) == 16602 + 2 * t + 2 * q + p
  {
    var i := PaddedIntent(id, t, q, p);
    UuidText(id);
    PlainOnes("a");
    QuotesText(256);
    QuotesText(t);
    QuotesText(q);
    PlainOnes(Repeated('a', p));
    JoinedText(Quotes(q), Repeated('a', p));
    PlainOnes(Repeated('a', 64));
    hide JsonChars, Quotes, Repeated, Items, IsUuid4;
    HostItems(Quotes(256), 32);
    assert |i.binding.destination| == 32 && JsonInt(0) == 1;
  }

  lemma PaddedBytes(id: string, t: nat, q: nat, p: nat)
    requires IsUuid4(id)
    ensures RecordBytes(Padded(id, t, q, p)) == 16894 + 2 * t + 2 * q + p
  {
    hide IntentText, PaddedIntent, Quotes, Repeated, IsUuid4, JsonText, JsonInt, AckText, CapabilityText, PendingText;
    PaddedIntentText(id, t, q, p);
  }

  lemma PaddedBinding(id: string, t: nat, q: nat, p: nat)
    requires 1 <= t <= 4096 && 1 <= q + p <= 4096
    ensures ValidBinding(PaddedIntent(id, t, q, p).binding)
  {
    hide IsIdentifier;
    var b := PaddedIntent(id, t, q, p).binding;
    AsciiIdentifier("a", 128);
    AsciiIdentifier(b.target, 4096);
    AsciiIdentifier(b.home.value, 4096);
    AsciiIdentifier(Quotes(256), 256);
    hide Quotes, Repeated;
    assert forall k :: 0 <= k < |b.destination| ==> b.destination[k] == Quotes(256);
    assert IsDigest(b.payloadDigest);
  }

  lemma PaddedIsStrong(id: string, t: nat, q: nat, p: nat)
    requires IsUuid4(id) && 1 <= t <= 4096 && 1 <= q + p <= 4096
    ensures Strong(Padded(id, t, q, p)) && InFlight(Padded(id, t, q, p))
  {
    hide IsUuid4, IsIdentifier, IsDigest, Quotes, Repeated, ValidBinding;
    PaddedBinding(id, t, q, p);
  }

  /* ----- a crowd of attempts that fill their reserve ----- */

  function HexDigit(d: nat): (c: char)
    requires d < 16
    ensures LowerHex(c)
  {
    if d < 10 then (48 + d) as char else (87 + d) as char
  }

  function CrowdId(k: nat): string
    requires k < 4096
  {
    Uuid([HexDigit(k / 256), HexDigit(k / 16 % 16), HexDigit(k % 16)])
  }

  lemma CrowdIdIsUuid(k: nat)
    requires k < 4096
    ensures IsUuid4(CrowdId(k))
  {
    UuidIsValid([HexDigit(k / 256), HexDigit(k / 16 % 16), HexDigit(k % 16)]);
  }

  lemma HexDigitsDiffer(a: nat, b: nat)
    requires a < 16 && b < 16 && HexDigit(a) == HexDigit(b)
    ensures a == b
  {
  }

  lemma CrowdIdDigits(k: nat)
    requires k < 4096
    ensures |CrowdId(k)| == 36 && CrowdId(k)[33] == HexDigit(k / 256)
    ensures CrowdId(k)[34] == HexDigit(k / 16 % 16) && CrowdId(k)[35] == HexDigit(k % 16)
    ensures k == 256 * (k / 256) + 16 * (k / 16 % 16) + k % 16
  {
    hide HexDigit;
  }

  lemma CrowdIdsDiffer(j: nat, k: nat)
    requires j < k < 4096
    ensures CrowdId(j) != CrowdId(k)
  {
    CrowdIdDigits(j);
    CrowdIdDigits(k);
    hide CrowdId, HexDigit;
    if CrowdId(j) == CrowdId(k) {
      HexDigitsDiffer(j / 256, k / 256);
      HexDigitsDiffer(j / 16 % 16, k / 16 % 16);
      HexDigitsDiffer(j % 16, k % 16);
    }
  }

  // 32768 bytes: nothing can be added.
  function Full(k: nat): Record
    requires k < 4096
  {
    Padded(CrowdId(k), 4096, 3586, 510)
  }

  function Crowd(n: nat): Records
    requires n <= 4096
  {
    if n == 0 then map[] else Crowd(n - 1)[CrowdId(n - 1) := Full(n - 1)]
  }

  lemma {:induction false} CrowdMember(n: nat, id: string)
    requires n <= 4096 && id in Crowd(n)
    ensures exists k :: 0 <= k < n && id == CrowdId(k) && Crowd(n)[id] == Full(k)
  {
    hide CrowdId, Full;
    if id != CrowdId(n - 1) {
      CrowdMember(n - 1, id);
    }
  }

  lemma NotInCrowd(n: nat, k: nat)
    requires n <= k < 4096
    ensures CrowdId(k) !in Crowd(n)
  {
    if CrowdId(k) in Crowd(n) {
      CrowdMember(n, CrowdId(k));
      var j :| 0 <= j < n && CrowdId(k) == CrowdId(j);
      CrowdIdsDiffer(j, k);
    }
  }

  lemma SumAdd(records: Records, x: string, r: Record, weight: Record -> int)
    requires x !in records
    ensures Sum(records[x := r], records[x := r].Keys, weight) == weight(r) + Sum(records, records.Keys, weight)
  {
    var more := records[x := r];
    SumRemove(more, more.Keys, weight, x);
    assert more.Keys - {x} == records.Keys;
    SumCompare(more, records.Keys, records, weight, weight);
    SumCompare(records, records.Keys, more, weight, weight);
  }

  lemma OneMore(n: nat, each: int)
    requires n > 0
    ensures n * each == (n - 1) * each + each
  {
  }

  lemma {:induction false} CrowdSum(n: nat, weight: Record -> int, each: int)
    requires n <= 4096 && forall k :: 0 <= k < n ==> weight(Full(k)) == each
    ensures |Crowd(n)| == n && Sum(Crowd(n), Crowd(n).Keys, weight) == n * each
  {
    hide CrowdId, Full, Sum;
    if n == 0 {
      EmptySum(weight);
    } else {
      CrowdSum(n - 1, weight, each);
      NotInCrowd(n - 1, n - 1);
      SumAdd(Crowd(n - 1), CrowdId(n - 1), Full(n - 1), weight);
      OneMore(n, each);
    }
  }

  lemma EmptySum(weight: Record -> int)
    ensures Sum(Crowd(0), Crowd(0).Keys, weight) == 0
  {
  }

  lemma FullBytes(k: nat)
    requires k < 4096
    ensures RecordBytes(Full(k)) == RECORD_BYTES && Full(k).phase == Attempted
  {
    CrowdIdIsUuid(k);
    PaddedBytes(CrowdId(k), 4096, 3586, 510);
  }

  // The crowd and one smaller attempt.
  function Snapshot(n: nat, last: Record): Records
    requires n < 4096
  {
    Crowd(n)[CrowdId(n) := last]
  }

  lemma SnapshotSums(size: Record -> nat, n: nat, last: Record)
    requires n < 4096 && last.phase != Tombstone
    requires forall k :: 0 <= k < n ==> size(Full(k)) == RECORD_BYTES && Full(k).phase != Tombstone
    ensures |Snapshot(n, last)| == n + 1
    ensures Reserved(size, Snapshot(n, last)) == 1024 + 32768 * (n + 1)
    ensures EncodedBytes(size, Snapshot(n, last)) == 118 + 32808 * n + size(last)
  {
    NotInCrowd(n, n);
    hide CrowdId, Full, Crowd, Sum;
    var cost: Record -> int, bytes: Record -> int := r => Cost(size, r), r => size(r) + 40;
    CrowdSum(n, cost, 32768);
    CrowdSum(n, bytes, 32808);
    SumAdd(Crowd(n), CrowdId(n), last, cost);
    SumAdd(Crowd(n), CrowdId(n), last, bytes);
    SameSum(Snapshot(n, last), cost, r => Cost(size, r));
    SameSum(Snapshot(n, last), bytes, r => size(r) + 40);
    assert CrowdId(n) in Snapshot(n, last);
  }

  // What saving the crowd with one more record comes to.
  lemma SnapshotSaved(size: Record -> nat, n: nat, last: Record)
    requires n <= 1022 && last.phase != Tombstone
    requires forall k :: 0 <= k < n ==> size(Full(k)) == RECORD_BYTES && Full(k).phase != Tombstone
    ensures SaveError(size, Snapshot(n, last)) ==
      if size(last) > RECORD_BYTES then Some(RecordCapacity)
      else if 118 + 32808 * n + size(last) > LEDGER_BYTES then Some(LedgerCapacity)
      else None
  {
    hide CrowdId, Full, Crowd, Reserved, EncodedBytes;
    var records := Snapshot(n, last);
    SnapshotSums(size, n, last);
    assert CrowdId(n) in records && records[CrowdId(n)] == last;
    forall id | id in records && id != CrowdId(n) ensures size(records[id]) == RECORD_BYTES {
      CrowdMember(n, id);
    }
  }

  lemma CrowdIsFull(n: nat)
    requires n < 4096
    ensures forall k :: 0 <= k < n ==> RecordBytes(Full(k)) == RECORD_BYTES && Full(k).phase != Tombstone
  {
    hide RecordBytes, Full;
    forall k | 0 <= k < n ensures RecordBytes(Full(k)) == RECORD_BYTES && Full(k).phase != Tombstone {
      FullBytes(k);
    }
  }

  lemma SnapshotIsStrong(n: nat, last: Record)
    requires n <= 1022 && last.intent.id == CrowdId(n) && Strong(last)
    ensures AllStrong(Snapshot(n, last))
  {
    var records := Snapshot(n, last);
    hide CrowdId, Crowd, Padded, Strong;
    forall id | id in records ensures IsUuid4(id) && records[id].intent.id == id && Strong(records[id]) {
      CrowdIdIsUuid(n);
      if id != CrowdId(n) {
        CrowdMember(n, id);
        var k :| 0 <= k < n && id == CrowdId(k) && Crowd(n)[id] == Full(k);
        CrowdIdIsUuid(k);
        PaddedIsStrong(CrowdId(k), 4096, 3586, 510);
        PaddedId(CrowdId(k), 4096, 3586, 510);
      }
    }
  }

  lemma PaddedId(id: string, t: nat, q: nat, p: nat)
    ensures Padded(id, t, q, p).intent.id == id
  {
    hide Quotes, Repeated;
  }

  /* ----- the commits that are refused ----- */

  // The sender lost track of the native outcome.
  const COMMIT := Commit(Unknown, NativeFailure(NativeOutcomeUnknown), false, None, false)

  function Ended(r: Record): Record {
    r.(phase := Terminal, native := Some(NativeFailure(NativeOutcomeUnknown)))
  }

  // The attempt with the n-th ID, its sender not yet done.
  predicate Pending(r: Record, n: nat)
    requires n < 4096
  {
    && r.phase == Attempted && r.submission == Unknown && r.native.None? && r.capability.None?
    && r.intent.id == CrowdId(n) && Strong(r) && InFlight(r)
  }

  lemma PaddedIsPending(n: nat, t: nat, q: nat, p: nat)
    requires n < 4096 && 1 <= t <= 4096 && 1 <= q + p <= 4096
    ensures Pending(Padded(CrowdId(n), t, q, p), n)
    ensures RecordBytes(Padded(CrowdId(n), t, q, p)) == 16894 + 2 * t + 2 * q + p
  {
    hide CrowdId, Quotes, Repeated, Strong, InFlight, RecordBytes;
    CrowdIdIsUuid(n);
    PaddedBytes(CrowdId(n), t, q, p);
    PaddedIsStrong(CrowdId(n), t, q, p);
  }

  lemma EndedIsLonger(r: Record, n: nat)
    requires n < 4096 && Pending(r, n)
    ensures RecordBytes(Ended(r)) == RecordBytes(r) + 62 && r.phase != Tombstone && Ended(r).phase != Tombstone
  {
    hide IntentText, WaitItems, AckText, CapabilityText, PendingText, Strong, InFlight, CrowdId;
  }

  lemma CommitEnds(epoch: string, r: Record, n: nat, clock: Clock)
    requires n < 4096 && Pending(r, n) && clock.boot.None?
    ensures Apply(epoch, Retained(r, clock.boot, clock.tick(0)), COMMIT, clock) == Ok((Ended(r), Done))
    ensures InputsOk(COMMIT) && CommitOk(COMMIT, r.intent)
  {
    hide Strong, InFlight, CrowdId;
  }

  lemma NothingExpires(records: Records, clock: Clock)
    requires clock.boot.None?
    ensures RetainAll(records, clock) == records
  {
  }

  // A commit to the last record of a snapshot that is all in flight.
  lemma CommitOnLast(epoch: string, n: nat, last: Record, clock: Clock)
    requires n <= 1022 && clock.boot.None? && Pending(last, n)
    ensures AllStrong(Snapshot(n, last)) && Acceptable(Snapshot(n, last), On(CrowdId(n), COMMIT), clock)
    ensures Transact(RecordBytes, epoch, Snapshot(n, last), On(CrowdId(n), COMMIT), clock) ==
      match SaveError(RecordBytes, Snapshot(n, Ended(last)))
      case Some(e) => Err(e)
      case None => Ok((Snapshot(n, Ended(last)), Done))
  {
    hide Strong, InFlight, CrowdId, Crowd, AllStrong, Readable, RetainAll, Retained, Apply, SaveError, RecordBytes, Ended, InputsOk, CommitOk, Transact;
    var records := Snapshot(n, last);
    assert records[CrowdId(n)] == last;
    SnapshotIsStrong(n, last);
    StrongIsReadable(records);
    NothingExpires(records, clock);
    CommitEnds(epoch, last, n, clock);
    assert records[CrowdId(n) := Ended(last)] == Snapshot(n, Ended(last));
    TransactOn(RecordBytes, epoch, records, CrowdId(n), COMMIT, clock, Ok((Ended(last), Done)));
  }

  lemma RefusedIff(epoch: string, n: nat, last: Record, clock: Clock)
    requires n <= 1022 && clock.boot.None? && Pending(last, n) && RecordBytes(last) <= RECORD_BYTES
    ensures AllStrong(Snapshot(n, last)) && Acceptable(Snapshot(n, last), On(CrowdId(n), COMMIT), clock)
    ensures Fits(RecordBytes, Snapshot(n, last)) <==> 118 + 32808 * n + RecordBytes(last) <= LEDGER_BYTES
    ensures Transact(RecordBytes, epoch, Snapshot(n, last), On(CrowdId(n), COMMIT), clock) ==
      if RecordBytes(last) + 62 > RECORD_BYTES then Err(RecordCapacity)
      else if 118 + 32808 * n + RecordBytes(last) + 62 > LEDGER_BYTES then Err(LedgerCapacity)
      else Ok((Snapshot(n, Ended(last)), Done))
  {
    hide *;
    EndedIsLonger(last, n);
    CrowdIsFull(n);
    SnapshotSaved(RecordBytes, n, last);
    SnapshotSaved(RecordBytes, n, Ended(last));
    SaveErrorIffDoesNotFit(RecordBytes, Snapshot(n, last));
    CommitOnLast(epoch, n, last, clock);
  }

  // A saved ledger of n attempts of full length and a smaller one: with 1022
  // of them, the last the reserve admits, the smaller one cannot be ended.
  lemma FullLedgerRefusesCommit(epoch: string, n: nat, clock: Clock)
    requires n <= 1022 && clock.boot.None?
    ensures var last := Padded(CrowdId(n), 1, 3546, 550);
      && AllStrong(Snapshot(n, last)) && Fits(RecordBytes, Snapshot(n, last)) && RecordBytes(last) == 24538
      && Acceptable(Snapshot(n, last), On(CrowdId(n), COMMIT), clock)
      && Transact(RecordBytes, epoch, Snapshot(n, last), On(CrowdId(n), COMMIT), clock)
         == if n == 1022 then Err(LedgerCapacity) else Ok((Snapshot(n, Ended(last)), Done))
  {
    hide Transact, Acceptable, Fits, AllStrong, Snapshot, Pending, Padded, RecordBytes, CrowdId, Ended;
    PaddedIsPending(n, 1, 3546, 550);
    RefusedIff(epoch, n, Padded(CrowdId(n), 1, 3546, 550), clock);
  }

  // A record that fills its reserve cannot be ended, alone or in company.
  lemma FullRecordRefusesCommit(epoch: string, n: nat, clock: Clock)
    requires n <= 1022 && clock.boot.None?
    ensures var last := Padded(CrowdId(n), 4096, 3586, 510);
      && AllStrong(Snapshot(n, last)) && RecordBytes(last) == RECORD_BYTES
      && (Fits(RecordBytes, Snapshot(n, last)) <==> n < 1022)
      && Acceptable(Snapshot(n, last), On(CrowdId(n), COMMIT), clock)
      && Transact(RecordBytes, epoch, Snapshot(n, last), On(CrowdId(n), COMMIT), clock) == Err(RecordCapacity)
  {
    hide Transact, Acceptable, Fits, AllStrong, Snapshot, Pending, Padded, RecordBytes, CrowdId, Ended;
    PaddedIsPending(n, 4096, 3586, 510);
    RefusedIff(epoch, n, Padded(CrowdId(n), 4096, 3586, 510), clock);
  }
}
