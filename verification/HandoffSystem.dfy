/** Runs of many handoff processes over one ledger, with a crash possible at any point. */
module HandoffSystem {
  import opened Text
  import opened HandoffRecord
  import opened HandoffSteps
  import opened HandoffInvariant
  import opened HandoffProgress
  import opened HandoffLedger
  import opened HandoffPublic
  import opened HandoffRuns

  /* ----- senders keep their place outside the ledger ----- */

  datatype Stage =
    | Holding                                           // has a prepared intent
    | Fenced                                            // its attempt is saved, the effect may follow
    | Returned(submission: Submission, native: Native)  // the effect is over
    | Finished                                          // committed, gave up or crashed

  // A sender acts with its own arguments, not with the stored record.
  datatype Sender = Sender(
    id: string, binding: Binding, generation: Option<string>, nativeContext: Option<NativeContext>,
    remote: bool, stage: Stage, ownWait: Option<string>)

  datatype Event =
    | Effect(id: string, binding: Binding, generation: Option<string>, nativeContext: Option<NativeContext>)
    | MintedFor(id: string, hash: CapabilityHash, collector: string)
    | Accepted(id: string, receiptId: string)
    | Acked(id: string, receiptId: string, hash: CapabilityHash, collector: string, ns: int, authority: Capability)

  // log and erased are histories: what happened, and which records ever lost
  // detail to expiry or quarantine.
  datatype System = System(epoch: string, records: Records, senders: seq<Sender>, log: seq<Event>, erased: set<string>)

  datatype Step =
    | Transaction(change: Change, clock: Clock)
    | NewSender(id: string, binding: Binding, generation: Option<string>, nativeContext: Option<NativeContext>, remote: bool, clock: Clock)
    | ResumeSender(id: string, binding: Binding, generation: Option<string>, nativeContext: Option<NativeContext>, remote: bool, clock: Clock)
    | AttemptBy(pid: nat, observe: bool, ackRequested: bool, cutoffNs: int, wait: Option<WaitRequest>, clock: Clock)
    | EffectBy(pid: nat, submission: Submission, native: Native)
    | NoEffectBy(pid: nat, submission: Submission, native: Native)
    | CommitBy(pid: nat, interrupted: bool, clock: Clock)
    | CrashOf(pid: nat)

  predicate Owns(p: Sender, i: Intent) {
    (p.id, p.binding, p.generation, p.nativeContext) == (i.id, i.binding, i.generation, i.nativeContext)
  }

  predicate Active(p: Sender) {
    p.stage.Fenced? || p.stage.Returned?
  }

  // The intent a sender believes in, for checking the native reply.
  function Believed(p: Sender): Intent {
    Intent(p.id, p.binding, p.generation, p.nativeContext, 0, 0, None)
  }

  predicate OutcomeOk(p: Sender, submission: Submission, native: Native) {
    submission in {Submitted, Refused, Unknown} && ValidNative(native, submission, Believed(p))
  }

  function HashIn(f: Frame, id: string): CapabilityHash {
    CapabilityHash(f.ledgerEpoch, id, f.generation, f.token)
  }

  function Events(kept: Records, after: Records, change: Change, clock: Clock): seq<Event> {
    if !change.On? || change.id !in kept || change.id !in after then []
    else match change.op
         case Mint(f, collector) => [MintedFor(change.id, HashIn(f, change.id), collector)]
         case Receive(f, collector, classify) =>
           (if classify then [] else [Accepted(change.id, f.receiptId)])
           + (if kept[change.id].ack.None? && HasTokenAck(after[change.id]) && kept[change.id].capability.Some?
                 && after[change.id].ack.value.receiptId.Some? then
                [Acked(change.id, after[change.id].ack.value.receiptId.value, HashIn(f, change.id), collector, clock.tick(1),
                       kept[change.id].capability.value)]
              else [])
         case _ => []
  }

  ghost function Applied(size: Record -> nat, s: System, change: Change, clock: Clock): System {
    match Transact(size, s.epoch, s.records, change, clock)
    case Err(_) => s
    case Ok(p) =>
      s.(records := p.0,
         log := s.log + Events(RetainAll(s.records, clock), p.0, change, clock),
         erased := s.erased + set id | id in s.records && Erases(change, s.records[id], clock))
  }

  function WithSender(s: System, pid: nat, stage: Stage, ownWait: Option<string>): System
    requires pid < |s.senders|
  {
    s.(senders := s.senders[pid := s.senders[pid].(stage := stage, ownWait := ownWait)])
  }

  function CommitOf(p: Sender, interrupted: bool): Change
    requires p.stage.Returned?
  {
    On(p.id, Commit(p.stage.submission, p.stage.native, p.remote, p.ownWait, interrupted))
  }

  ghost predicate Enabled(s: System, step: Step) {
    match step
    case Transaction(change, clock) =>
      ClockOk(clock) && Acceptable(s.records, change, clock) && (change.On? ==> !change.op.Attempt? && !change.op.Commit?)
    case NewSender(id, binding, generation, context, _, clock) =>
      ClockOk(clock) && Acceptable(s.records, Prepare(id, binding, generation, context), clock)
    case ResumeSender(_, _, _, _, _, clock) => ClockOk(clock)
    case AttemptBy(pid, _, _, _, wait, clock) =>
      pid < |s.senders| && s.senders[pid].stage.Holding? && ClockOk(clock)
      && (wait.Some? ==> WaitInputOk(wait.value) && !s.senders[pid].remote)
    case EffectBy(pid, submission, native) =>
      pid < |s.senders| && s.senders[pid].stage.Fenced? && OutcomeOk(s.senders[pid], submission, native)
    case NoEffectBy(pid, submission, native) =>
      pid < |s.senders| && s.senders[pid].stage.Fenced? && OutcomeOk(s.senders[pid], submission, native) && submission != Submitted
    case CommitBy(pid, _, clock) => pid < |s.senders| && s.senders[pid].stage.Returned? && ClockOk(clock)
    case CrashOf(pid) => pid < |s.senders|
  }

  ghost function Next(size: Record -> nat, s: System, step: Step): System
    requires Enabled(s, step)
  {
    match step
    case Transaction(change, clock) => Applied(size, s, change, clock)
    case NewSender(id, binding, generation, context, remote, clock) =>
      var change := Prepare(id, binding, generation, context);
      var s' := Applied(size, s, change, clock);
      if Transact(size, s.epoch, s.records, change, clock).Err? then s'
      else s'.(senders := s'.senders + [Sender(id, binding, generation, context, remote, Holding, None)])
    case ResumeSender(id, binding, generation, context, remote, clock) =>
      var change := On(id, Resume(binding, generation, context));
      var s' := Applied(size, s, change, clock);
      if Transact(size, s.epoch, s.records, change, clock).Err? then s'
      else s'.(senders := s'.senders + [Sender(id, binding, generation, context, remote, Holding, None)])
    case AttemptBy(pid, observe, ackRequested, cutoff, wait, clock) =>
      var change := On(s.senders[pid].id, Attempt(observe, ackRequested, cutoff, wait));
      var s' := Applied(size, s, change, clock);
      if Transact(size, s.epoch, s.records, change, clock).Err? then WithSender(s', pid, Finished, None)
      else WithSender(s', pid, Fenced, if wait.Some? then Some(wait.value.operationId) else None)
    case EffectBy(pid, submission, native) =>
      var p := s.senders[pid];
      WithSender(s, pid, Returned(submission, native), p.ownWait)
        .(log := s.log + [Effect(p.id, p.binding, p.generation, p.nativeContext)])
    case NoEffectBy(pid, submission, native) => WithSender(s, pid, Returned(submission, native), s.senders[pid].ownWait)
    case CommitBy(pid, interrupted, clock) =>
      Applied(size, WithSender(s, pid, Finished, None), CommitOf(s.senders[pid], interrupted), clock)
    case CrashOf(pid) => WithSender(s, pid, Finished, None)
  }

  function Initial(epoch: string): System {
    System(epoch, map[], [], [], {})
  }

  // A run from initialisation: states[i + 1] is states[i] after steps[i].
  ghost predicate IsRun(size: Record -> nat, states: seq<System>, steps: seq<Step>) {
    && |states| == |steps| + 1
    && IsUuid4(states[0].epoch) && states[0] == Initial(states[0].epoch)
    && forall i :: 0 <= i < |steps| ==> Enabled(states[i], steps[i]) && states[i + 1] == Next(size, states[i], steps[i])
  }

  /* ----- the invariant of every run ----- */

  ghost predicate SendersOk(s: System) {
    && (forall p :: 0 <= p < |s.senders| ==>
          && s.senders[p].id in s.records && Owns(s.senders[p], s.records[s.senders[p].id].intent)
          && (Active(s.senders[p]) ==> InFlight(s.records[s.senders[p].id]))
          && (s.senders[p].stage.Returned? ==> OutcomeOk(s.senders[p], s.senders[p].stage.submission, s.senders[p].stage.native)))
    && (forall p, q :: 0 <= p < q < |s.senders| && Active(s.senders[p]) && Active(s.senders[q]) ==>
          s.senders[p].id != s.senders[q].id)
  }

  predicate EffectMatches(e: Event, i: Intent)
    requires e.Effect?
  {
    (e.id, e.binding, e.generation, e.nativeContext) == (i.id, i.binding, i.generation, i.nativeContext)
  }

  ghost predicate EffectsOk(s: System) {
    && (forall k :: 0 <= k < |s.log| && s.log[k].Effect? ==>
          s.log[k].id in s.records && EffectMatches(s.log[k], s.records[s.log[k].id].intent) && s.records[s.log[k].id].phase != Prepared)
    && (forall k, m :: 0 <= k < m < |s.log| && s.log[k].Effect? && s.log[m].Effect? ==> s.log[k].id != s.log[m].id)
    && (forall k, p :: 0 <= k < |s.log| && s.log[k].Effect? && 0 <= p < |s.senders| && s.senders[p].stage.Fenced? ==>
          s.log[k].id != s.senders[p].id)
  }

  ghost predicate ReceiptsOk(s: System) {
    && (forall k :: 0 <= k < |s.log| && s.log[k].Accepted? ==>
          s.log[k].id in s.records && Locked(s.records[s.log[k].id], s.log[k].receiptId))
    && (forall k, m :: 0 <= k < m < |s.log| && s.log[k].Accepted? && s.log[m].Accepted? && s.log[k].id == s.log[m].id ==>
          s.log[k].receiptId == s.log[m].receiptId)
  }

  ghost predicate Justified(log: seq<Event>, k: nat, records: Records)
    requires k < |log| && log[k].Acked?
  {
    var e := log[k];
    && MintedFor(e.id, e.hash, e.collector) in log[..k]
    && !e.authority.revoked && e.authority.hash == e.hash && e.authority.clockEpoch == e.collector
    && e.id in records && e.ns < records[e.id].intent.createdNs + DAY_NS
  }

  ghost predicate AuthorityOk(s: System) {
    && (forall id :: id in s.records && s.records[id].capability.Some? ==>
          MintedFor(id, s.records[id].capability.value.hash, s.records[id].capability.value.clockEpoch) in s.log)
    && (forall k :: 0 <= k < |s.log| && s.log[k].Acked? ==> Justified(s.log, k, s.records))
    && (forall id :: id in s.records && HasTokenAck(s.records[id]) ==> Recorded(s.log, id, s.records[id].ack.value))
  }

  ghost predicate Recorded(log: seq<Event>, id: string, a: Ack) {
    exists k :: 0 <= k < |log| && log[k].Acked? && log[k].id == id
      && a.receiptId == Some(log[k].receiptId) && a.classifiedClockEpoch == Some(log[k].collector)
  }

  ghost predicate Inv(s: System) {
    IsUuid4(s.epoch) && AllStrong(s.records) && SendersOk(s) && EffectsOk(s) && ReceiptsOk(s) && AuthorityOk(s)
  }

  /* ----- one committed transaction keeps the invariant ----- */

  predicate Unowned(s: System, change: Change) {
    change.On? && change.op.Commit? ==>
      forall p :: 0 <= p < |s.senders| && Active(s.senders[p]) ==> s.senders[p].id != change.id
  }

  ghost predicate Steppable(size: Record -> nat, s: System, change: Change, clock: Clock) {
    && Inv(s) && ClockOk(clock) && Acceptable(s.records, change, clock) && Unowned(s, change)
    && Transact(size, s.epoch, s.records, change, clock).Ok?
  }

  lemma TransactionKeepsSenders(size: Record -> nat, s: System, change: Change, clock: Clock)
    requires Steppable(size, s, change, clock)
    ensures SendersOk(Applied(size, s, change, clock))
  {
    TransactionStep(size, s.epoch, s.records, change, clock);
    var s' := Applied(size, s, change, clock);
    forall p | 0 <= p < |s.senders|
      ensures s.senders[p].id in s'.records && Owns(s.senders[p], s'.records[s.senders[p].id].intent)
      ensures Active(s.senders[p]) ==> InFlight(s'.records[s.senders[p].id])
    {
      var id := s.senders[p].id;
      assert RecordStep(s.records[id], s'.records[id], change, clock);
    }
  }

  // No record forgets its intent or becomes prepared again.
  lemma TransactionCarries(size: Record -> nat, s: System, change: Change, clock: Clock, id: string)
    requires Steppable(size, s, change, clock) && id in s.records
    ensures var s' := Applied(size, s, change, clock);
      && id in s'.records && s'.records[id].intent == s.records[id].intent
      && (s.records[id].phase != Prepared ==> s'.records[id].phase != Prepared)
      && Persists(s.records[id], s'.records[id])
  {
    TransactionStep(size, s.epoch, s.records, change, clock);
    var s' := Applied(size, s, change, clock);
    assert RecordStep(s.records[id], s'.records[id], change, clock);
  }

  // What a transaction may add to the log.
  lemma EventShape(kept: Records, after: Records, change: Change, clock: Clock, k: nat)
    requires k < |Events(kept, after, change, clock)|
    ensures var e := Events(kept, after, change, clock)[k];
      && !e.Effect? && change.On?
      && (e.MintedFor? ==> change.op.Mint? && e == MintedFor(change.id, HashIn(change.op.frame, change.id), change.op.collector))
      && (e.Accepted? ==> k == 0 && change.op.Receive? && !change.op.classify && e == Accepted(change.id, change.op.frame.receiptId))
      && (e.Acked? ==>
            && change.op.Receive? && change.id in kept && change.id in after
            && kept[change.id].ack.None? && HasTokenAck(after[change.id]) && kept[change.id].capability.Some?
            && e == Acked(change.id, e.receiptId, HashIn(change.op.frame, change.id), change.op.collector, clock.tick(1),
                          kept[change.id].capability.value)
            && after[change.id].ack.value.receiptId == Some(e.receiptId))
  {
  }

  lemma LogGrows(size: Record -> nat, s: System, change: Change, clock: Clock)
    requires Transact(size, s.epoch, s.records, change, clock).Ok?
    ensures var s' := Applied(size, s, change, clock);
      && s'.records == Transact(size, s.epoch, s.records, change, clock).value.0
      && s'.senders == s.senders && s'.epoch == s.epoch
      && s'.log == s.log + Events(RetainAll(s.records, clock), s'.records, change, clock)
  {
  }

  lemma EffectsCarry(s: System, s': System)
    requires EffectsOk(s)
    requires s'.senders == s.senders && s.log <= s'.log
    requires forall k :: |s.log| <= k < |s'.log| ==> !s'.log[k].Effect?
    requires forall id :: id in s.records ==>
      id in s'.records && s'.records[id].intent == s.records[id].intent
      && (s.records[id].phase != Prepared ==> s'.records[id].phase != Prepared)
    ensures EffectsOk(s')
  {
    forall k | 0 <= k < |s'.log| && s'.log[k].Effect? ensures k < |s.log| && s'.log[k] == s.log[k] { }
  }

  lemma NoEffectLogged(size: Record -> nat, s: System, change: Change, clock: Clock)
    requires Transact(size, s.epoch, s.records, change, clock).Ok?
    ensures var s' := Applied(size, s, change, clock);
            s.log <= s'.log && s'.senders == s.senders && forall k :: |s.log| <= k < |s'.log| ==> !s'.log[k].Effect?
  {
    LogGrows(size, s, change, clock);
    hide *;
    var kept, after := RetainAll(s.records, clock), Applied(size, s, change, clock).records;
    forall k | 0 <= k < |Events(kept, after, change, clock)| ensures !Events(kept, after, change, clock)[k].Effect? {
      EventShape(kept, after, change, clock, k);
    }
    NoEffectAppended(s.log, Events(kept, after, change, clock));
  }

  lemma NoEffectAppended(log: seq<Event>, more: seq<Event>)
    requires forall k :: 0 <= k < |more| ==> !more[k].Effect?
    ensures log <= log + more && forall k :: |log| <= k < |log + more| ==> !(log + more)[k].Effect?
  {
  }

  lemma TransactionKeepsEffects(size: Record -> nat, s: System, change: Change, clock: Clock)
    requires Steppable(size, s, change, clock)
    ensures EffectsOk(Applied(size, s, change, clock))
  {
    hide *;
    SteppableFacts(size, s, change, clock);
    NoEffectLogged(size, s, change, clock);
    var s' := Applied(size, s, change, clock);
    forall id | id in s.records
      ensures id in s'.records && s'.records[id].intent == s.records[id].intent
      ensures s.records[id].phase != Prepared ==> s'.records[id].phase != Prepared
    {
      TransactionCarries(size, s, change, clock, id);
    }
    EffectsCarry(s, s');
  }

  lemma SteppableFacts(size: Record -> nat, s: System, change: Change, clock: Clock)
    requires Steppable(size, s, change, clock)
    ensures EffectsOk(s) && Transact(size, s.epoch, s.records, change, clock).Ok?
  {
    hide EffectsOk, Transact, Strong, SendersOk, ReceiptsOk, AuthorityOk;
  }

  /* ----- receipts and authority ----- */

  // What a committed operation did to its record.
  lemma OkOn(size: Record -> nat, s: System, change: Change, clock: Clock)
    requires Transact(size, s.epoch, s.records, change, clock).Ok? && change.On?
    ensures change.id in s.records
    ensures var kept := Retained(s.records[change.id], clock.boot, clock.tick(0));
      && RetainAll(s.records, clock)[change.id] == kept
      && Apply(s.epoch, kept, change.op, clock).Ok?
      && change.id in Applied(size, s, change, clock).records
      && Applied(size, s, change, clock).records[change.id] == Apply(s.epoch, kept, change.op, clock).value.0
  {
  }

  lemma TransactionCarriesLock(size: Record -> nat, s: System, change: Change, clock: Clock, id: string, receiptId: string)
    requires Steppable(size, s, change, clock) && id in s.records && Locked(s.records[id], receiptId)
    ensures var s' := Applied(size, s, change, clock); id in s'.records && Locked(s'.records[id], receiptId)
  {
    TransactionStep(size, s.epoch, s.records, change, clock);
    var s' := Applied(size, s, change, clock);
    assert RecordStep(s.records[id], s'.records[id], change, clock);
  }

  // A newly accepted receipt agrees with every one accepted before.
  lemma NewReceiptAgrees(size: Record -> nat, s: System, change: Change, clock: Clock)
    requires Steppable(size, s, change, clock) && change.On? && change.op.Receive? && !change.op.classify
    ensures var s' := Applied(size, s, change, clock);
      && change.id in s'.records && Locked(s'.records[change.id], change.op.frame.receiptId)
      && forall k :: 0 <= k < |s.log| && s.log[k].Accepted? && s.log[k].id == change.id ==>
           s.log[k].receiptId == change.op.frame.receiptId
  {
    OkOn(size, s, change, clock);
    var r := s.records[change.id];
    assert r.intent.id == change.id && Strong(r);
    var kept := Retained(r, clock.boot, clock.tick(0));
    RetainedKeepsStrong(r, clock.boot, clock.tick(0));
    AcceptedIsLocked(s.epoch, kept, change.op.frame, change.op.collector, clock);
    forall k | 0 <= k < |s.log| && s.log[k].Accepted? && s.log[k].id == change.id
      ensures s.log[k].receiptId == change.op.frame.receiptId
    {
      ErasureKeepsLocked(r, clock.boot, clock.tick(0), s.log[k].receiptId);
      ReceiveKeepsLocked(s.epoch, kept, change.op.frame, change.op.collector, false, clock, s.log[k].receiptId);
    }
  }

  // newest is the receipt the transaction accepted, if any.
  lemma ReceiptsCarry(s: System, s': System, newest: Option<(string, string)>)
    requires ReceiptsOk(s)
    requires s.log <= s'.log
    requires forall k :: 0 <= k < |s.log| && s.log[k].Accepted? ==>
      s.log[k].id in s'.records && Locked(s'.records[s.log[k].id], s.log[k].receiptId)
    requires forall k :: |s.log| <= k < |s'.log| && s'.log[k].Accepted? ==>
      newest.Some? && k == |s.log| && s'.log[k] == Accepted(newest.value.0, newest.value.1)
    requires newest.Some? ==>
      && newest.value.0 in s'.records && Locked(s'.records[newest.value.0], newest.value.1)
      && forall k :: 0 <= k < |s.log| && s.log[k].Accepted? && s.log[k].id == newest.value.0 ==> s.log[k].receiptId == newest.value.1
    ensures ReceiptsOk(s')
  {
    forall k | 0 <= k < |s.log| ensures s'.log[k] == s.log[k] { }
  }

  lemma TransactionKeepsReceipts(size: Record -> nat, s: System, change: Change, clock: Clock)
    requires Steppable(size, s, change, clock)
    ensures ReceiptsOk(Applied(size, s, change, clock))
  {
    hide AllStrong, SendersOk, EffectsOk, AuthorityOk, Locked, Transact, Acceptable;
    LogGrows(size, s, change, clock);
    var s' := Applied(size, s, change, clock);
    var newest: Option<(string, string)> := None;
    if change.On? && change.op.Receive? && !change.op.classify {
      NewReceiptAgrees(size, s, change, clock);
      newest := Some((change.id, change.op.frame.receiptId));
    }
    forall k | 0 <= k < |s.log| && s.log[k].Accepted?
      ensures s.log[k].id in s'.records && Locked(s'.records[s.log[k].id], s.log[k].receiptId)
    {
      TransactionCarriesLock(size, s, change, clock, s.log[k].id, s.log[k].receiptId);
    }
    forall k | |s.log| <= k < |s'.log| && s'.log[k].Accepted?
      ensures newest.Some? && k == |s.log| && s'.log[k] == Accepted(newest.value.0, newest.value.1)
    {
      EventShape(RetainAll(s.records, clock), s'.records, change, clock, k - |s.log|);
    }
    ReceiptsCarry(s, s', newest);
  }

  // The only operation that creates authority is a mint.
  lemma CapabilitySource(epoch: string, r: Record, op: Operation, clock: Clock)
    requires Apply(epoch, r, op, clock).Ok?
    ensures var r' := Apply(epoch, r, op, clock).value.0;
      r'.capability.Some? && r.capability.None? ==>
        && op.Mint? && r'.capability.value.clockEpoch == op.collector
        && r'.capability.value.hash == CapabilityHash(epoch, r.intent.id, op.frame.generation, op.frame.token)
        && epoch == op.frame.ledgerEpoch
  {
    hide IsIdentifier, IsUuid4, FindWait;
  }

  // The only operation that records a token acknowledgement is an authorised receipt.
  lemma TokenAckSource(epoch: string, r: Record, op: Operation, clock: Clock)
    requires Apply(epoch, r, op, clock).Ok?
    ensures var r' := Apply(epoch, r, op, clock).value.0;
      HasTokenAck(r') && r'.ack != r.ack ==>
        && op.Receive? && r.ack.None? && Authorized(epoch, r, op.frame)
        && r.capability.value.clockEpoch == op.collector && clock.tick(1) < r.capability.value.expiresNs
        && r'.ack.value.receiptId.Some? && r'.ack.value.classifiedClockEpoch == Some(op.collector)
  {
    hide IsIdentifier, IsUuid4, FindWait;
  }

  ghost predicate CapabilityLogged(s: System, id: string)
    requires id in s.records
  {
    var c := s.records[id].capability;
    c.Some? ==> MintedFor(id, c.value.hash, c.value.clockEpoch) in s.log
  }

  lemma MintIsLogged(size: Record -> nat, s: System, change: Change, clock: Clock)
    requires Transact(size, s.epoch, s.records, change, clock).Ok?
    requires change.On? && change.op.Mint? && change.id in s.records
    ensures MintedFor(change.id, HashIn(change.op.frame, change.id), change.op.collector) in Applied(size, s, change, clock).log
  {
    hide Readable, SaveError, Apply;
    LogGrows(size, s, change, clock);
    var s' := Applied(size, s, change, clock);
    assert s'.log[|s.log|] == MintedFor(change.id, HashIn(change.op.frame, change.id), change.op.collector);
  }

  lemma NewRecordHasNoCapability(size: Record -> nat, s: System, change: Change, clock: Clock, id: string)
    requires Transact(size, s.epoch, s.records, change, clock).Ok?
    requires id in Applied(size, s, change, clock).records && id !in s.records
    ensures Applied(size, s, change, clock).records[id].capability.None?
  {
    hide Apply, Readable, SaveError, Events;
  }

  lemma UntouchedCapability(size: Record -> nat, s: System, change: Change, clock: Clock, id: string)
    requires Transact(size, s.epoch, s.records, change, clock).Ok? && id in s.records && !(change.On? && change.id == id)
    requires id in Applied(size, s, change, clock).records && s.records[id].capability.None?
    ensures Applied(size, s, change, clock).records[id].capability.None?
  {
    hide Apply, Readable, SaveError, Events;
  }

  lemma MintedCapability(size: Record -> nat, s: System, change: Change, clock: Clock, id: string)
    requires Transact(size, s.epoch, s.records, change, clock).Ok? && change.On? && change.id == id
    requires id in s.records && s.records[id].intent.id == id && s.records[id].capability.None?
    requires id in Applied(size, s, change, clock).records
    ensures CapabilityLogged(Applied(size, s, change, clock), id)
  {
    OkOn(size, s, change, clock);
    var kept := Retained(s.records[id], clock.boot, clock.tick(0));
    assert kept.capability.None? && kept.intent.id == id;
    CapabilitySource(s.epoch, kept, change.op, clock);
    hide Apply, Transact, Applied, Retained;
    if Applied(size, s, change, clock).records[id].capability.Some? {
      MintIsLogged(size, s, change, clock);
    }
  }

  lemma TransactionKeepsCapability(size: Record -> nat, s: System, change: Change, clock: Clock, id: string)
    requires Steppable(size, s, change, clock)
    requires id in Applied(size, s, change, clock).records
    ensures CapabilityLogged(Applied(size, s, change, clock), id)
  {
    hide Strong, SendersOk, EffectsOk, ReceiptsOk, Acceptable, Transact, Locked, InFlight, Applied;
    LogGrows(size, s, change, clock);
    if id !in s.records {
      NewRecordHasNoCapability(size, s, change, clock, id);
    } else {
      TransactionCarries(size, s, change, clock, id);
      assert s.records[id].intent.id == id;
      if s.records[id].capability.Some? {
        assert CapabilityLogged(s, id);
      } else if change.On? && change.id == id {
        MintedCapability(size, s, change, clock, id);
      } else {
        UntouchedCapability(size, s, change, clock, id);
      }
    }
  }

  lemma LoggedBefore(log: seq<Event>, longer: seq<Event>, k: nat, e: Event)
    requires log <= longer && |log| <= k <= |longer| && e in log
    ensures e in longer[..k]
  {
    var j :| 0 <= j < |log| && log[j] == e;
    assert longer[..k][j] == e;
  }

  lemma NewAckIsJustified(size: Record -> nat, s: System, change: Change, clock: Clock, k: nat)
    requires Steppable(size, s, change, clock)
    requires |s.log| <= k < |Applied(size, s, change, clock).log| && Applied(size, s, change, clock).log[k].Acked?
    ensures Justified(Applied(size, s, change, clock).log, k, Applied(size, s, change, clock).records)
  {
    hide ValidRecord, SendersOk, EffectsOk, ReceiptsOk, Acceptable, Apply, Readable, SaveError, Locked, InFlight;
    LogGrows(size, s, change, clock);
    var s' := Applied(size, s, change, clock);
    EventShape(RetainAll(s.records, clock), s'.records, change, clock, k - |s.log|);
    OkOn(size, s, change, clock);
    var id := change.id;
    var kept := Retained(s.records[id], clock.boot, clock.tick(0));
    TokenAckSource(s.epoch, kept, change.op, clock);
    TransactionCarries(size, s, change, clock, id);
    assert kept == s.records[id] && kept.intent.id == id && Strong(kept);
    var c := kept.capability.value;
    hide Strong, Transact, Applied, Events, RetainAll, Retained;
    LoggedBefore(s.log, s'.log, k, MintedFor(id, c.hash, c.clockEpoch));
  }

  lemma OldAckStaysJustified(s: System, s': System, k: nat)
    requires k < |s.log| && s.log[k].Acked? && Justified(s.log, k, s.records)
    requires s.log <= s'.log
    requires forall id :: id in s.records ==> id in s'.records && s'.records[id].intent == s.records[id].intent
    ensures s'.log[k] == s.log[k] && Justified(s'.log, k, s'.records)
  {
    assert s'.log[..k] == s.log[..k];
  }

  lemma OtherRecordsKeepAck(size: Record -> nat, s: System, change: Change, clock: Clock, id: string)
    requires Transact(size, s.epoch, s.records, change, clock).Ok?
    requires id in s.records && id in Applied(size, s, change, clock).records
    requires !(change.On? && change.id == id) && !(change.Prepare? && change.id == id)
    ensures Applied(size, s, change, clock).records[id].ack in {s.records[id].ack, None}
  {
    hide Apply, Readable, SaveError;
  }

  lemma RecordedGrows(log: seq<Event>, log': seq<Event>, id: string, a: Ack)
    requires Recorded(log, id, a) && log <= log'
    ensures Recorded(log', id, a)
  {
    var k :| 0 <= k < |log| && log[k].Acked? && log[k].id == id
      && a.receiptId == Some(log[k].receiptId) && a.classifiedClockEpoch == Some(log[k].collector);
    assert log'[k] == log[k];
  }

  lemma NewAckIsLogged(kept: Records, after: Records, id: string, op: Operation, clock: Clock, log: seq<Event>)
    requires op.Receive? && id in kept && id in after
    requires kept[id].ack.None? && HasTokenAck(after[id]) && kept[id].capability.Some?
    requires after[id].ack.value.receiptId.Some? && after[id].ack.value.classifiedClockEpoch == Some(op.collector)
    ensures Recorded(log + Events(kept, after, On(id, op), clock), id, after[id].ack.value)
  {
    var ev := Events(kept, after, On(id, op), clock);
    var k := |ev| - 1;
    assert ev[k].Acked?;
    assert (log + ev)[|log| + k] == ev[k];
  }

  lemma TransactionRecordsAck(size: Record -> nat, s: System, change: Change, clock: Clock, id: string)
    requires Steppable(size, s, change, clock)
    requires id in Applied(size, s, change, clock).records && HasTokenAck(Applied(size, s, change, clock).records[id])
    ensures Recorded(Applied(size, s, change, clock).log, id, Applied(size, s, change, clock).records[id].ack.value)
  {
    hide AllStrong, SendersOk, EffectsOk, ReceiptsOk, Apply, Transact, Acceptable, Recorded, Events, Justified;
    LogGrows(size, s, change, clock);
    TransactionStep(size, s.epoch, s.records, change, clock);
    var s' := Applied(size, s, change, clock);
    var a := s'.records[id].ack.value;
    assert id in s.records;
    if s.records[id].ack == Some(a) {
      assert HasTokenAck(s.records[id]);
      RecordedGrows(s.log, s'.log, id, a);
    } else {
      if !(change.On? && change.id == id) { OtherRecordsKeepAck(size, s, change, clock, id); }
      OkOn(size, s, change, clock);
      TokenAckSource(s.epoch, Retained(s.records[id], clock.boot, clock.tick(0)), change.op, clock);
      NewAckIsLogged(RetainAll(s.records, clock), s'.records, id, change.op, clock, s.log);
    }
  }

  lemma TransactionKeepsAuthority(size: Record -> nat, s: System, change: Change, clock: Clock)
    requires Steppable(size, s, change, clock)
    ensures AuthorityOk(Applied(size, s, change, clock))
  {
    hide AllStrong, SendersOk, EffectsOk, ReceiptsOk, Acceptable, Transact, Justified, Recorded;
    LogGrows(size, s, change, clock);
    var s' := Applied(size, s, change, clock);
    forall id | id in s'.records && s'.records[id].capability.Some?
      ensures MintedFor(id, s'.records[id].capability.value.hash, s'.records[id].capability.value.clockEpoch) in s'.log
    {
      TransactionKeepsCapability(size, s, change, clock, id);
    }
    forall id | id in s.records ensures id in s'.records && s'.records[id].intent == s.records[id].intent {
      TransactionCarries(size, s, change, clock, id);
    }
    forall k | 0 <= k < |s'.log| && s'.log[k].Acked? ensures Justified(s'.log, k, s'.records) {
      if k < |s.log| {
        OldAckStaysJustified(s, s', k);
      } else {
        NewAckIsJustified(size, s, change, clock, k);
      }
    }
    forall id | id in s'.records && HasTokenAck(s'.records[id]) ensures Recorded(s'.log, id, s'.records[id].ack.value) {
      TransactionRecordsAck(size, s, change, clock, id);
    }
  }

  lemma TransactionKeepsInv(size: Record -> nat, s: System, change: Change, clock: Clock)
    requires Steppable(size, s, change, clock)
    ensures Inv(Applied(size, s, change, clock))
  {
    hide SendersOk, EffectsOk, ReceiptsOk, AuthorityOk, Strong, Acceptable, Transact;
    TransactionStep(size, s.epoch, s.records, change, clock);
    LogGrows(size, s, change, clock);
    TransactionKeepsSenders(size, s, change, clock);
    TransactionKeepsEffects(size, s, change, clock);
    TransactionKeepsReceipts(size, s, change, clock);
    TransactionKeepsAuthority(size, s, change, clock);
  }
}
