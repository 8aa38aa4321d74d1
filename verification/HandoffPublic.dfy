/** The exported view of a handoff record and its closed-shape check (session_peer_core/handoff.py). */
module HandoffPublic {
  import opened Text
  import opened HandoffRecord
  import opened Json

  datatype State = Validated | StateRefused | StateSubmitted | StateDelivered | StateAcknowledged | StateUnknown | StateTimedOut
  datatype ObservationStatus = ObservationNotRequested | ObservationPending | Observed | ObservationUnsupported | ObservationFailed
  datatype TurnStatus = Running | Completed | TurnFailed | Interrupted | TurnUnknown
  datatype Turn = Turn(id: string, status: TurnStatus)
  datatype Observation = Observation(
    status: ObservationStatus, injectionObserved: bool, clientUserMessageId: Option<string>, turn: Option<Turn>)
  datatype AckStatus = AckNotRequested | AckPending | AckAcknowledged | AckUnsupported
  datatype AckView = AckView(status: AckStatus, assurance: Option<Assurance>, receivedAtUtcMs: Option<int>, late: Option<bool>)
  // goal None is "none"; status None is "not_requested".
  datatype WaitView = WaitView(
    goal: Option<Goal>, status: Option<WaitStatus>,
    operationId: Option<string>, deadlineAtUtcMs: Option<int>, reason: Option<WaitReason>)
  datatype Action = KeepWaiting | Reconcile | StopWaiting
  datatype View = View(
    correlationId: string, ledgerEpoch: string, state: State, submission: Submission, observation: Observation,
    ack: AckView, wait: WaitView, targetGeneration: Option<string>, nextActions: seq<Action>)

  /* ----- the length of the encoded view ----- */

  function StateBytes(s: State): nat {
    match s
    case Validated => 9 case StateRefused => 7 case StateSubmitted => 9 case StateDelivered => 9
    case StateAcknowledged => 12 case StateUnknown => 7 case StateTimedOut => 17
  }

  function SubmissionBytes(s: Submission): nat {
    match s case NotAttempted => 13 case Submitted => 9 case Refused => 7 case Unknown => 7
  }

  function ObservationBytes(o: Observation): nat {
    (match o.status
     case ObservationNotRequested => 13 case ObservationPending => 7 case Observed => 8
     case ObservationUnsupported => 11 case ObservationFailed => 6)
    + (if o.injectionObserved then 4 else 5)
    + (if o.clientUserMessageId.Some? then 23 + JsonText(o.clientUserMessageId.value) else 0)
    + (if o.turn.Some? then
         52 + JsonText(o.turn.value.id)
         + (match o.turn.value.status case Running => 7 case Completed => 9 case TurnFailed => 6 case Interrupted => 11 case TurnUnknown => 7)
       else 0)
  }

  function AckBytes(a: AckView): nat {
    (match a.status case AckNotRequested => 13 case AckPending => 7 case AckAcknowledged => 12 case AckUnsupported => 11)
    + (if a.assurance.Some? then 15 + (if a.assurance.value == TokenPossession then 16 else 18) else 0)
    + (if a.receivedAtUtcMs.Some? then 19 + JsonInt(a.receivedAtUtcMs.value) else 0)
    + (if a.late.Some? then 8 + (if a.late.value then 4 else 5) else 0)
  }

  function WaitBytes(w: WaitView): nat {
    (match w.goal case None => 4 case Some(Delivered) => 9 case Some(Acknowledged) => 12)
    + (match w.status
       case None => 13 case Some(Pending) => 7 case Some(Satisfied) => 9 case Some(TimedOutUnknown) => 17
       case Some(Stopped) => 7 case Some(Unsupported) => 11 case Some(Failed) => 6)
    + (if w.operationId.Some? then 15 + JsonText(w.operationId.value) else 0)
    + (if w.deadlineAtUtcMs.Some? then 19 + JsonInt(w.deadlineAtUtcMs.value) else 0)
    + (match w.reason
       case None => 0 case Some(InsufficientBudget) => 31 case Some(DeadlineBeforeEffect) => 34
       case Some(EvidenceUnsupported) => 32 case Some(EvidenceFailed) => 27 case Some(HistoryUnavailable) => 31
       case Some(StoppedByOperator) => 31 case Some(InvalidHandoff) => 27)
  }

  function ActionsBytes(actions: seq<Action>): nat {
    if actions == [] then 0
    else (if actions[0] == Reconcile then 11 else 14) + (if |actions| > 1 then 1 else 0) + ActionsBytes(actions[1..])
  }

  // The length of the compact JSON text of a view, key by key.
  function EncodedBytes(v: View): nat {
    323 + JsonText(v.correlationId) + JsonText(v.ledgerEpoch) + StateBytes(v.state) + SubmissionBytes(v.submission)
    + ObservationBytes(v.observation) + AckBytes(v.ack) + WaitBytes(v.wait)
    + (if v.targetGeneration.Some? then JsonText(v.targetGeneration.value) else 4)
    + ActionsBytes(v.nextActions)
  }

  /* ----- the closed-shape check ----- */

  predicate StateMatches(s: State, submission: Submission) {
    match s
    case Validated => submission == NotAttempted
    case StateRefused => submission == Refused
    case StateSubmitted | StateDelivered | StateAcknowledged => submission == Submitted
    case StateUnknown => submission == Unknown
    case StateTimedOut => submission == Submitted || submission == Unknown
  }

  predicate ValidObservation(v: View) {
    var o := v.observation;
    && (o.clientUserMessageId.Some? ==> IsIdentifier(o.clientUserMessageId.value, 128))
    && (o.injectionObserved ==>
          v.submission == Submitted && o.status == Observed && o.clientUserMessageId.Some? && v.targetGeneration.Some?)
    && (o.turn.Some? ==> o.injectionObserved && IsIdentifier(o.turn.value.id, 128))
    && (v.state == StateDelivered ==> o.injectionObserved)
  }

  predicate ValidAckView(v: View) {
    var a := v.ack;
    && (if a.status == AckAcknowledged then
          && v.state == StateAcknowledged && v.targetGeneration.Some? && v.submission == Submitted
          && a.assurance.Some? && a.late.Some? && a.receivedAtUtcMs.Some? && UtcMs(a.receivedAtUtcMs.value)
        else
          && a.assurance.None? && a.late.None? && a.receivedAtUtcMs.None?
          && (a.status == AckPending ==> v.targetGeneration.Some?))
    && (v.state == StateAcknowledged ==> a.status == AckAcknowledged)
  }

  predicate ValidWaitView(v: View) {
    var w := v.wait;
    && (w.operationId.Some? ==> IsUuid4(w.operationId.value))
    && (w.deadlineAtUtcMs.Some? ==> UtcMs(w.deadlineAtUtcMs.value))
    && (if w.goal.None? then w.status.None? && w.operationId.None? && w.deadlineAtUtcMs.None?
        else w.status.Some? && w.operationId.Some? && w.deadlineAtUtcMs.Some?)
    && (w.status == Some(Satisfied) ==>
          if w.goal == Some(Delivered) then v.observation.injectionObserved else v.ack.status == AckAcknowledged)
    && (w.status == Some(Stopped) ==> w.reason == Some(StoppedByOperator))
  }

  predicate ValidActions(v: View) {
    && (forall i, j :: 0 <= i < j < |v.nextActions| ==> v.nextActions[i] != v.nextActions[j])
    && (v.wait.status == Some(Unsupported) || v.wait.reason == Some(HistoryUnavailable) ==> KeepWaiting !in v.nextActions)
  }

  predicate ValidView(v: View) {
    && EncodedBytes(v) <= 8192
    && IsUuid4(v.ledgerEpoch) && IsUuid4(v.correlationId)
    && StateMatches(v.state, v.submission)
    && (v.targetGeneration.Some? ==> IsIdentifier(v.targetGeneration.value, 256))
    && ValidObservation(v) && ValidAckView(v) && ValidWaitView(v) && ValidActions(v)
  }

  /* ----- the projection ----- */

  function LastWait(r: Record): Option<Wait> {
    if r.waits == [] then None else Some(r.waits[|r.waits| - 1])
  }

  function StateOf(r: Record): State {
    if r.ack.Some? && r.submission == Submitted then StateAcknowledged
    else if LastWait(r).Some? && LastWait(r).value.status == TimedOutUnknown && r.submission in {Submitted, Unknown} then StateTimedOut
    else match r.submission
         case NotAttempted => Validated case Refused => StateRefused case Submitted => StateSubmitted case Unknown => StateUnknown
  }

  predicate LiveAuthority(r: Record) {
    r.ackRequested && r.capability.Some? && !r.capability.value.revoked
  }

  function AckOf(r: Record): AckView {
    match r.ack
    case Some(a) => AckView(AckAcknowledged, Some(a.assurance), Some(a.receivedAtUtcMs), Some(a.late))
    case None =>
      AckView(if LiveAuthority(r) then AckPending else if r.ackRequested then AckUnsupported else AckNotRequested, None, None, None)
  }

  function WaitOf(w: Option<Wait>): WaitView {
    match w
    case None => WaitView(None, None, None, None, None)
    case Some(w) => WaitView(Some(w.goal), Some(w.status), Some(w.operationId), Some(w.deadlineAtUtcMs), w.reason)
  }

  function ActionsOf(r: Record, activeClock: Option<string>, now: int): seq<Action> {
    if r.submission !in {Submitted, Unknown} then []
    else
      var wait := LastWait(r);
      var keep := LiveAuthority(r) && r.ack.None?
                  && activeClock == Some(r.capability.value.clockEpoch) && now < r.capability.value.expiresNs
                  && (wait.None? || (wait.value.status != Unsupported && wait.value.reason != Some(HistoryUnavailable)));
      [Reconcile]
      + (if keep then [KeepWaiting] else [])
      + (if wait.Some? && wait.value.status == Pending then [StopWaiting] else [])
  }

  function Public(epoch: string, r: Record, activeClock: Option<string>, now: int): View {
    View(r.intent.id, epoch, StateOf(r), r.submission,
         Observation(if r.observe then ObservationUnsupported else ObservationNotRequested, false, None, None),
         AckOf(r), WaitOf(LastWait(r)), r.intent.generation, ActionsOf(r, activeClock, now))
  }

  /* ----- every exported view passes the check ----- */

  lemma UtcDigits(n: int)
    requires UtcMs(n)
    ensures JsonInt(n) <= 16
  {
    assert Pow10(4) == 10000;
    assert Pow10(8) == 10000 * Pow10(4);
    assert Pow10(12) == 10000 * Pow10(8);
    assert Pow10(16) == 10000 * Pow10(12);
    DigitsBound(n, 16);
  }

  lemma WaitFits(w: Option<Wait>)
    requires w.Some? ==> ValidWait(w.value)
    ensures WaitBytes(WaitOf(w)) <= 400
  {
    if w.Some? {
      JsonCharsBounds(w.value.operationId);
      UtcDigits(w.value.deadlineAtUtcMs);
    }
  }

  lemma AckFits(r: Record)
    requires r.ack.Some? ==> UtcMs(r.ack.value.receivedAtUtcMs)
    ensures AckBytes(AckOf(r)) <= 100
  {
    if r.ack.Some? {
      UtcDigits(r.ack.value.receivedAtUtcMs);
    }
  }

  lemma PublicFits(epoch: string, r: Record, activeClock: Option<string>, now: int)
    requires IsUuid4(epoch) && IsUuid4(r.intent.id)
    requires r.intent.generation.Some? ==> IsIdentifier(r.intent.generation.value, 256)
    requires LastWait(r).Some? ==> ValidWait(LastWait(r).value)
    requires r.ack.Some? ==> UtcMs(r.ack.value.receivedAtUtcMs)
    ensures EncodedBytes(Public(epoch, r, activeClock, now)) <= 2048
  {
    var v := Public(epoch, r, activeClock, now);
    JsonCharsBounds(v.correlationId);
    JsonCharsBounds(v.ledgerEpoch);
    if v.targetGeneration.Some? { JsonCharsBounds(v.targetGeneration.value); }
    AckFits(r);
    WaitFits(LastWait(r));
    ActionsBound(v.nextActions);
    assert |v.nextActions| <= 3;
    assert ObservationBytes(v.observation) <= 20;
    assert StateBytes(v.state) <= 17 && SubmissionBytes(v.submission) <= 13;
  }

  lemma ActionsBound(actions: seq<Action>)
    ensures ActionsBytes(actions) <= 15 * |actions|
  {
  }

  // The last wait of a record quarantined after its receipt stays satisfied.
  predicate SatisfiedWithoutAck(r: Record) {
    LastWait(r).Some? && LastWait(r).value.status == Satisfied && r.ack.None?
  }

  lemma WaitExports(epoch: string, r: Record, activeClock: Option<string>, now: int)
    requires LastWait(r).Some? ==>
      ValidWait(LastWait(r).value) && (LastWait(r).value.status == Satisfied ==> LastWait(r).value.goal == Acknowledged)
    ensures ValidWaitView(Public(epoch, r, activeClock, now)) <==> !SatisfiedWithoutAck(r)
  {
  }

  lemma AckExports(epoch: string, r: Record, activeClock: Option<string>, now: int)
    requires r.ack.Some? ==> ValidAck(r.ack.value) && r.intent.generation.Some? && r.submission == Submitted
    requires r.capability.Some? ==> r.intent.generation.Some?
    ensures ValidAckView(Public(epoch, r, activeClock, now))
    ensures ValidObservation(Public(epoch, r, activeClock, now)) && ValidActions(Public(epoch, r, activeClock, now))
    ensures StateMatches(StateOf(r), r.submission)
  {
  }

  // A record that satisfies the stronger invariant is exportable exactly when
  // its last wait is not left satisfied by a quarantine.
  lemma PublicValidIff(epoch: string, r: Record, activeClock: Option<string>, now: int)
    requires Strong(r) && IsUuid4(epoch)
    ensures ValidView(Public(epoch, r, activeClock, now)) <==> !SatisfiedWithoutAck(r)
    ensures SatisfiedWithoutAck(r) ==> r.phase == Quarantined
  {
    if LastWait(r).Some? {
      var k := |r.waits| - 1;
      assert ValidWait(r.waits[k]);
      assert r.waits[k].status == Satisfied ==> HasSatisfied(r.waits) && r.waits[k].goal == Acknowledged;
    }
    PublicFits(epoch, r, activeClock, now);
    WaitExports(epoch, r, activeClock, now);
    AckExports(epoch, r, activeClock, now);
  }

  // The check made on load is too weak for the export: it admits a record with
  // receipt authority but no generation, whose view is refused.
  lemma CheckDoesNotImplyExport(epoch: string, r: Record, cap: Capability)
    requires Strong(r) && r.intent.generation.None? && r.phase == Terminal && r.submission == Unknown
    requires ValidCapability(cap) && !cap.revoked
    ensures var odd := r.(capability := Some(cap), ackRequested := true);
            ValidRecord(odd) && !ValidView(Public(epoch, odd, None, 0))
  {
    var odd := r.(capability := Some(cap), ackRequested := true);
    assert !ValidAckView(Public(epoch, odd, None, 0));
  }
}
