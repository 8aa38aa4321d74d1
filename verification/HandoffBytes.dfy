/** The length of an encoded handoff record, and how much of it an intent leaves
    for what happens to it later (session_peer_core/handoff.py). */
module HandoffBytes {
  import opened Text
  import opened Sequences
  import opened Json
  import opened HandoffRecord
  import HandoffLedger
  import HandoffPublic

  /* ----- compact JSON text, encoded in UTF-8, key by key ----- */

  function OptionalText(s: Option<string>): nat {
    if s.Some? then JsonText(s.value) else 4
  }

  function Items(texts: seq<string>): nat {
    if texts == [] then 0 else JsonText(texts[0]) + Items(texts[1..])
  }

  function Commas(n: nat): nat {
    if n > 1 then n - 1 else 0
  }

  function FlagText(b: bool): nat { if b then 4 else 5 }

  function GoalText(g: Goal): nat { if g == Delivered then 11 else 14 }

  function StatusText(s: WaitStatus): nat {
    match s
    case Pending => 9 case Satisfied => 11 case TimedOutUnknown => 19
    case Stopped => 9 case Unsupported => 13 case Failed => 8
  }

  function ReasonText(r: WaitReason): nat {
    match r
    case InsufficientBudget => 21 case DeadlineBeforeEffect => 24 case EvidenceUnsupported => 22
    case EvidenceFailed => 17 case HistoryUnavailable => 21 case StoppedByOperator => 21 case InvalidHandoff => 17
  }

  // A wait without a reason has no such key.
  function WaitText(w: Wait): nat {
    80 + GoalText(w.goal) + StatusText(w.status) + JsonText(w.operationId)
    + JsonInt(w.deadlineAtUtcMs) + JsonInt(w.deadlineNs) + OptionalText(w.clockEpoch)
    + (if w.reason.Some? then 10 + ReasonText(w.reason.value) else 0)
  }

  function WaitItems(waits: seq<Wait>): nat {
    if waits == [] then 0 else WaitText(waits[0]) + WaitItems(waits[1..])
  }

  function AckText(a: Ack): nat {
    102 + (if a.assurance == TokenPossession then 18 else 20) + JsonInt(a.receivedAtUtcMs) + FlagText(a.late)
    + OptionalText(a.receiptId) + OptionalText(a.classifiedClockEpoch)
  }

  // The hash is printed as 64 hexadecimal digits.
  function CapabilityText(c: Capability): nat {
    113 + JsonText(c.clockEpoch) + JsonInt(c.expiresNs) + FlagText(c.revoked)
  }

  function PendingText(p: PendingReceipt): nat {
    61 + JsonText(p.receiptId) + JsonText(p.clockEpoch) + JsonInt(p.receivedNs) + JsonInt(p.receivedAtUtcMs)
  }

  function NativeText(n: Option<Native>): nat {
    match n
    case None => 4
    case Some(NativeFailure(reason)) => if reason == NativeOutcomeUnknown then 67 else 70
    case Some(NativeSuccess(_, _, _, _, _, bytes)) => bytes
  }

  function PhaseText(p: Phase): nat {
    match p case Prepared => 10 case Attempted => 11 case Terminal => 10 case Tombstone => 11 case Quarantined => 13
  }

  // The part of the text that no transaction changes.
  function IntentText(i: Intent): nat {
    JsonText(i.id) + JsonText(i.binding.agent) + 2 + Items(i.binding.destination) + Commas(|i.binding.destination|)
    + JsonText(i.binding.target) + OptionalText(i.binding.home) + JsonText(i.binding.payloadDigest)
    + OptionalText(i.generation) + JsonInt(i.createdNs) + JsonInt(i.createdUtcMs) + OptionalText(i.historyBoot)
    + (if i.nativeContext.Some? then 17 + i.nativeContext.value.bytes else 0)
  }

  // The part that transactions write. A prepared record has neither flag.
  function FactText(r: Record): nat {
    PhaseText(r.phase) + 2 + HandoffPublic.SubmissionBytes(r.submission) + NativeText(r.native)
    + 2 + WaitItems(r.waits) + Commas(|r.waits|)
    + (if r.ack.Some? then AckText(r.ack.value) else 4)
    + (if r.capability.Some? then CapabilityText(r.capability.value) else 4)
    + (if r.pendingReceipt.Some? then PendingText(r.pendingReceipt.value) else 4)
    + (if r.phase == Prepared then 0 else 27 + FlagText(r.observe) + FlagText(r.ackRequested))
  }

  const FRAME := 217
  const MAX_WAIT_TEXT := 258
  // 64 waits, an acknowledgement, authority, a receipt and 8192 bytes of native facts.
  const MAX_FACT_TEXT := 25391

  function RecordBytes(r: Record): nat {
    FRAME + IntentText(r.intent) + FactText(r)
  }

  /* ----- bounds from the field limits ----- */

  lemma {:induction false} AtMostSixPerChar(s: string)
    ensures JsonText(s) <= 2 + 6 * |s|
  {
    JsonCharsBounds(s);
  }

  lemma {:induction false} PlainOnes(s: string)
    requires forall i :: 0 <= i < |s| ==> JsonChar(s[i]) == 1
    ensures JsonChars(s) == |s|
  {
    if s != [] {
      PlainOnes(s[1..]);
    }
  }

  lemma UuidText(s: string)
    requires IsUuid4(s)
    ensures JsonText(s) == 38
  {
    forall i | 0 <= i < |s| ensures JsonChar(s[i]) == 1 {
      UuidChar(s, i);
    }
    PlainOnes(s);
  }

  lemma UuidChar(s: string, i: nat)
    requires IsUuid4(s) && i < |s|
    ensures LowerHex(s[i]) || s[i] == '-'
  {
    if i < 8 { assert s[..8][i] == s[i]; }
    else if 9 <= i < 13 { assert s[9..13][i - 9] == s[i]; }
    else if 15 <= i < 18 { assert s[15..18][i - 15] == s[i]; }
    else if 20 <= i < 23 { assert s[20..23][i - 20] == s[i]; }
    else if 24 <= i { assert s[24..][i - 24] == s[i]; }
  }

  lemma DigestText(s: string)
    requires IsDigest(s)
    ensures JsonText(s) == 66
  {
    PlainOnes(s);
  }

  // An identifier has no control characters: only quotes and backslashes grow.
  lemma IdentifierText(s: string, limit: nat)
    requires IsIdentifier(s, limit)
    ensures JsonText(s) <= 2 + 2 * limit
  {
    JsonCharsBounds(s);
  }

  lemma Powers()
    ensures Pow10(16) == 10000000000000000 && Pow10(19) == 10000000000000000000
  {
    assert Pow10(5) == 10 * Pow10(4) == 100 * Pow10(3) == 1000 * Pow10(2) == 10000 * Pow10(1) == 100000;
    assert Pow10(10) == 10 * Pow10(9) == 100 * Pow10(8) == 1000 * Pow10(7) == 10000 * Pow10(6);
    assert Pow10(15) == 10 * Pow10(14) == 100 * Pow10(13) == 1000 * Pow10(12) == 10000 * Pow10(11);
    assert Pow10(19) == 10 * Pow10(18) == 100 * Pow10(17) == 1000 * Pow10(16);
    assert Pow10(6) == 10 * Pow10(5) && Pow10(11) == 10 * Pow10(10) && Pow10(16) == 10 * Pow10(15);
  }

  lemma ClockText(n: int)
    requires ClockNs(n)
    ensures JsonInt(n) <= 19
  {
    Powers();
    DigitsBound(n, 19);
  }

  lemma UtcText(n: int)
    requires UtcMs(n)
    ensures JsonInt(n) <= 16
  {
    Powers();
    DigitsBound(n, 16);
  }

  lemma LargestNumbers()
    ensures JsonInt(MAX_CLOCK_NS) == 19 && JsonInt(MAX_SAFE_INTEGER) == 16
  {
    Powers();
    ClockText(MAX_CLOCK_NS);
    UtcText(MAX_SAFE_INTEGER);
    assert Pow10(19) == 10 * Pow10(18) && Pow10(16) == 10 * Pow10(15);
    DigitsAtLeast(MAX_CLOCK_NS, 18);
    DigitsAtLeast(MAX_SAFE_INTEGER, 15);
  }

  lemma WaitBound(w: Wait)
    requires ValidWait(w)
    ensures WaitText(w) <= MAX_WAIT_TEXT
  {
    UuidText(w.operationId);
    UtcText(w.deadlineAtUtcMs);
    ClockText(w.deadlineNs);
    if w.clockEpoch.Some? { UuidText(w.clockEpoch.value); }
  }

  lemma {:induction false} WaitsBound(waits: seq<Wait>)
    requires forall i :: 0 <= i < |waits| ==> ValidWait(waits[i])
    ensures WaitItems(waits) <= MAX_WAIT_TEXT * |waits|
  {
    if waits != [] {
      WaitBound(waits[0]);
      WaitsBound(waits[1..]);
    }
  }

  lemma AckBound(a: Ack)
    requires ValidAck(a)
    ensures AckText(a) <= 217
  {
    UtcText(a.receivedAtUtcMs);
    if a.assurance == TokenPossession {
      UuidText(a.receiptId.value);
      UuidText(a.classifiedClockEpoch.value);
    }
  }

  lemma CapabilityBound(c: Capability)
    requires ValidCapability(c)
    ensures CapabilityText(c) <= 175
  {
    ClockText(c.expiresNs);
    UuidText(c.clockEpoch);
  }

  lemma PendingBound(p: PendingReceipt)
    requires ValidPending(p)
    ensures PendingText(p) <= 172
  {
    UuidText(p.receiptId);
    UuidText(p.clockEpoch);
    ClockText(p.receivedNs);
    UtcText(p.receivedAtUtcMs);
  }

  lemma NativeBound(r: Record)
    requires ValidRecord(r)
    ensures NativeText(r.native) <= if r.submission == Submitted then 8192 else 70
    ensures (r.ack.Some? ==> r.submission == Submitted) && (r.submission == Submitted ==> r.phase == Terminal)
  {
    hide ValidIntent, ValidWait, ValidAck, ValidCapability, ValidPending, ValidSuccess;
  }

  // Whatever happens to a record adds a bounded number of bytes to its intent.
  lemma FactsAreBounded(r: Record)
    requires ValidRecord(r)
    ensures FactText(r) <= MAX_FACT_TEXT
  {
    NativeBound(r);
    WaitsBound(r.waits);
    if r.ack.Some? { AckBound(r.ack.value); }
    if r.capability.Some? { CapabilityBound(r.capability.value); }
    if r.pendingReceipt.Some? { PendingBound(r.pendingReceipt.value); }
    FactsAddUp(r);
  }

  lemma FactsAddUp(r: Record)
    requires |r.waits| <= MAX_WAITS && WaitItems(r.waits) <= MAX_WAIT_TEXT * |r.waits|
    requires NativeText(r.native) <= if r.submission == Submitted then 8192 else 70
    requires r.submission == Submitted ==> r.phase == Terminal
    requires r.ack.Some? ==> r.submission == Submitted && AckText(r.ack.value) <= 217
    requires r.capability.Some? ==> CapabilityText(r.capability.value) <= 175
    requires r.pendingReceipt.Some? ==> PendingText(r.pendingReceipt.value) <= 172
    ensures FactText(r) <= MAX_FACT_TEXT
  {
    hide WaitItems, AckText, CapabilityText, PendingText, NativeText;
  }

  /* ----- when the record limit always suffices ----- */

  const HEAD: string := "00000000-0000-4000-8000-000000000"

  // A correlation ID that ends in the given three digits.
  function Uuid(digits: string): string {
    HEAD + digits
  }

  lemma HeadDigits()
    ensures |HEAD| == 33 && forall i :: 0 <= i < 33 && i !in {8, 13, 18, 23} ==> LowerHex(HEAD[i])
  {
  }

  lemma UuidIsValid(digits: string)
    requires |digits| == 3 && LowerHexText(digits)
    ensures IsUuid4(Uuid(digits))
  {
    var head, s := HEAD, Uuid(digits);
    HeadDigits();
    assert s[8] == s[13] == s[18] == s[23] == '-' && s[14] == '4' && s[19] == '8' == "89ab"[0];
    forall i | 0 <= i < 36 && i !in {8, 13, 18, 23} ensures LowerHex(s[i]) {
      if i < 33 { assert s[i] == head[i]; } else { assert s[i] == digits[i - 33]; }
    }
    hide LowerHex, Uuid;
    assert LowerHexText(s[..8]) && LowerHexText(s[9..13]) && LowerHexText(s[15..18]);
    assert LowerHexText(s[20..23]) && LowerHexText(s[24..]);
  }

  function LongestWait(): Wait {
    Wait(Acknowledged, TimedOutUnknown, Uuid("000"), MAX_SAFE_INTEGER, MAX_CLOCK_NS, Some(Uuid("000")), Some(DeadlineBeforeEffect))
  }

  // The longest record of an intent whose receipts can be collected.
  function LongestRecord(i: Intent, hash: CapabilityHash): Record {
    Record(i, Terminal, Submitted, Some(NativeSuccess(i.binding.target, 0, None, None, None, 8192)),
           Repeated(LongestWait(), MAX_WAITS),
           Some(Ack(TokenPossession, MAX_SAFE_INTEGER, false, Some(Uuid("000")), Some(Uuid("000")))),
           Some(Capability(hash, Uuid("000"), MAX_CLOCK_NS, false)),
           Some(PendingReceipt(Uuid("000"), Uuid("000"), MAX_CLOCK_NS, MAX_SAFE_INTEGER)), false, false)
  }

  predicate ReceiptCapable(i: Intent) {
    ValidIntent(i) && i.binding.agent == "claude" && |i.binding.destination| == 1 && i.generation.Some?
  }

  lemma {:induction false} RepeatedWaits(w: Wait, n: nat)
    requires WaitText(w) == MAX_WAIT_TEXT
    ensures WaitItems(Repeated(w, n)) == MAX_WAIT_TEXT * n
  {
    hide WaitText;
    if n > 0 {
      RepeatedWaits(w, n - 1);
      assert Repeated(w, n)[1..] == Repeated(w, n - 1) && Repeated(w, n)[0] == w;
    }
  }

  lemma LongestWaitText()
    ensures ValidWait(LongestWait()) && WaitText(LongestWait()) == MAX_WAIT_TEXT
  {
    UuidIsValid("000");
    UuidText(Uuid("000"));
    LargestNumbers();
    hide JsonText, JsonInt, IsUuid4, Uuid;
  }

  lemma LongestPartsAreValid(i: Intent, hash: CapabilityHash)
    requires ReceiptCapable(i)
    ensures var r := LongestRecord(i, hash);
      && ValidAck(r.ack.value) && ValidCapability(r.capability.value) && ValidPending(r.pendingReceipt.value)
      && ValidNative(r.native.value, r.submission, i)
  {
    UuidIsValid("000");
    hide Repeated, IsUuid4, Uuid, ValidIntent;
  }

  lemma LongestIsValid(i: Intent, hash: CapabilityHash)
    requires ReceiptCapable(i)
    ensures ValidRecord(LongestRecord(i, hash))
  {
    LongestPartsAreValid(i, hash);
    LongestWaitText();
    hide *;
    LongestFits(i, hash);
  }

  lemma LongestFits(i: Intent, hash: CapabilityHash)
    requires ReceiptCapable(i) && ValidWait(LongestWait())
    requires var r := LongestRecord(i, hash);
      && ValidAck(r.ack.value) && ValidCapability(r.capability.value) && ValidPending(r.pendingReceipt.value)
      && ValidNative(r.native.value, r.submission, i)
    ensures ValidRecord(LongestRecord(i, hash))
  {
    hide ValidAck, ValidCapability, ValidPending, ValidNative, ValidWait, LongestWait, Uuid, ValidIntent;
  }

  lemma LongestIsLongest(i: Intent, hash: CapabilityHash)
    ensures FactText(LongestRecord(i, hash)) == MAX_FACT_TEXT
  {
    UuidIsValid("000");
    UuidText(Uuid("000"));
    LargestNumbers();
    LongestWaitText();
    hide WaitText, LongestWait, JsonText, JsonInt, WaitItems, Repeated, IsUuid4, Uuid;
    RepeatedWaits(LongestWait(), MAX_WAITS);
  }

  // Every record that an intent can lead to fits a limit if and only if the
  // longest one does.
  lemma AlwaysWithinIff(i: Intent, limit: int)
    requires ReceiptCapable(i)
    ensures (forall r :: ValidRecord(r) && r.intent == i ==> RecordBytes(r) <= limit)
       <==> FRAME + IntentText(i) + MAX_FACT_TEXT <= limit
  {
    forall r | ValidRecord(r) && r.intent == i ensures RecordBytes(r) <= FRAME + IntentText(i) + MAX_FACT_TEXT {
      FactsAreBounded(r);
    }
    var r := LongestRecord(i, CapabilityHash("", "", "", ""));
    LongestIsValid(i, CapabilityHash("", "", "", ""));
    LongestIsLongest(i, CapabilityHash("", "", "", ""));
    hide FactText, IntentText, ValidRecord;
    assert r.intent == i && RecordBytes(r) == FRAME + IntentText(i) + MAX_FACT_TEXT;
  }

  // An intent that leaves room for everything within its reserved bytes.
  predicate Roomy(i: Intent) {
    FRAME + IntentText(i) + MAX_FACT_TEXT <= HandoffLedger.RECORD_BYTES - 64
  }

  // One destination and a PID or thread as target; a Codex home comes with its
  // context, which names it as root, as selection and as a candidate.
  predicate SingleTarget(i: Intent) {
    && |i.binding.destination| == 1
    && |i.binding.target| <= 36
    && (i.nativeContext.None? ==> i.binding.home.None?)
    && (i.nativeContext.Some? ==> 3 * JsonText(i.nativeContext.value.root) <= i.nativeContext.value.bytes)
  }

  // The intents a send prepares leave that room.
  lemma SingleTargetIsRoomy(i: Intent)
    requires ValidIntent(i) && SingleTarget(i) && i.binding.agent in {"claude", "codex"}
    ensures Roomy(i)
  {
    UuidText(i.id);
    AtMostSixPerChar(i.binding.agent);
    IdentifierText(i.binding.destination[0], 256);
    assert Items(i.binding.destination) == JsonText(i.binding.destination[0]);
    AtMostSixPerChar(i.binding.target);
    DigestText(i.binding.payloadDigest);
    if i.generation.Some? { IdentifierText(i.generation.value, 256); }
    ClockText(i.createdNs);
    UtcText(i.createdUtcMs);
    if i.historyBoot.Some? { DigestText(i.historyBoot.value); }
    hide JsonText, JsonInt, Items, IsIdentifier, IsUuid4, IsDigest, ValidResolution;
  }
}
