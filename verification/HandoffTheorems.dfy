/** Main results about every run of the handoff system. */
module HandoffTheorems {
  import opened Text
  import opened HandoffRecord
  import opened HandoffSteps
  import opened HandoffInvariant
  import opened HandoffProgress
  import opened HandoffLedger
  import opened HandoffPublic
  import opened HandoffRuns
  import opened HandoffSystem

  /* ----- every step keeps the invariant ----- */

  lemma SendersDoNotMatter(s: System, senders: seq<Sender>)
    requires ReceiptsOk(s) && AuthorityOk(s)
    ensures ReceiptsOk(s.(senders := senders)) && AuthorityOk(s.(senders := senders))
  {
    hide Locked, Justified, Recorded;
  }

  // A sender may leave the fence, or stay outside it, at any time.
  lemma LeavingTheFence(s: System, pid: nat, stage: Stage, ownWait: Option<string>)
    requires Inv(s) && pid < |s.senders|
    requires !stage.Fenced?
    requires stage.Returned? ==> s.senders[pid].stage.Fenced? && OutcomeOk(s.senders[pid], stage.submission, stage.native)
    ensures Inv(WithSender(s, pid, stage, ownWait))
  {
    hide AllStrong, ReceiptsOk, AuthorityOk, InFlight;
    var s' := WithSender(s, pid, stage, ownWait);
    SendersDoNotMatter(s, s'.senders);
  }

  // The effect of a fenced sender is the first one for its intent.
  lemma EffectKeepsInv(s: System, pid: nat, submission: Submission, native: Native)
    requires Inv(s) && pid < |s.senders| && s.senders[pid].stage.Fenced? && OutcomeOk(s.senders[pid], submission, native)
    ensures var p := s.senders[pid];
      Inv(WithSender(s, pid, Returned(submission, native), p.ownWait)
            .(log := s.log + [Effect(p.id, p.binding, p.generation, p.nativeContext)]))
  {
    var p := s.senders[pid];
    var s1 := WithSender(s, pid, Returned(submission, native), p.ownWait);
    LeavingTheFence(s, pid, Returned(submission, native), p.ownWait);
    var s2 := s1.(log := s.log + [Effect(p.id, p.binding, p.generation, p.nativeContext)]);
    assert InFlight(s.records[p.id]);
    EffectIsNew(s1, s2, p);
    HistoryGrows(s1, s2, Effect(p.id, p.binding, p.generation, p.nativeContext));
  }

  lemma EffectIsNew(s1: System, s2: System, p: Sender)
    requires EffectsOk(s1)
    requires s2 == s1.(log := s1.log + [Effect(p.id, p.binding, p.generation, p.nativeContext)])
    requires p.id in s1.records && Owns(p, s1.records[p.id].intent) && s1.records[p.id].phase != Prepared
    requires forall k :: 0 <= k < |s1.log| && s1.log[k].Effect? ==> s1.log[k].id != p.id
    requires forall q :: 0 <= q < |s1.senders| && s1.senders[q].stage.Fenced? ==> s1.senders[q].id != p.id
    ensures EffectsOk(s2)
  {
  }

  lemma HistoryGrows(s1: System, s2: System, e: Event)
    requires ReceiptsOk(s1) && AuthorityOk(s1) && e.Effect?
    requires s2 == s1.(log := s1.log + [e])
    ensures ReceiptsOk(s2) && AuthorityOk(s2)
  {
    hide Locked, Justified, Recorded;
    forall k | 0 <= k < |s2.log| && s2.log[k].Acked? ensures Justified(s2.log, k, s2.records) {
      OldAckStaysJustified(s1, s2, k);
    }
    forall id | id in s2.records && HasTokenAck(s2.records[id]) ensures Recorded(s2.log, id, s2.records[id].ack.value) {
      RecordedGrows(s1.log, s2.log, id, s2.records[id].ack.value);
    }
  }

  // A new sender starts with an intent it has just read or written.
  lemma JoiningKeepsInv(s: System, p: Sender)
    requires Inv(s) && p.stage.Holding?
    requires p.id in s.records && Owns(p, s.records[p.id].intent)
    ensures Inv(s.(senders := s.senders + [p]))
  {
    hide AllStrong, ReceiptsOk, AuthorityOk, InFlight;
    SendersDoNotMatter(s, s.senders + [p]);
  }

  // Only one sender can pass the fence of an intent.
  lemma EnteringTheFence(size: Record -> nat, s: System, pid: nat, op: Operation, clock: Clock, ownWait: Option<string>)
    requires Inv(s) && pid < |s.senders| && s.senders[pid].stage.Holding? && op.Attempt?
    requires Steppable(size, s, On(s.senders[pid].id, op), clock)
    ensures Inv(WithSender(Applied(size, s, On(s.senders[pid].id, op), clock), pid, Fenced, ownWait))
  {
    var change := On(s.senders[pid].id, op);
    var s1 := Applied(size, s, change, clock);
    assert change.id in s.records ==> Strong(s.records[change.id]);
    assert Transact(size, s.epoch, s.records, change, clock).Ok? && (op.wait.Some? ==> WaitInputOk(op.wait.value));
    hide *;
    TransactionKeepsInv(size, s, change, clock);
    AttemptFences(size, s, change.id, op, clock);
    FencePromotion(s, s1, pid, ownWait);
  }

  // A committed attempt puts its record in flight and logs nothing.
  lemma AttemptFences(size: Record -> nat, s: System, id: string, op: Operation, clock: Clock)
    requires op.Attempt? && Transact(size, s.epoch, s.records, On(id, op), clock).Ok?
    requires op.wait.Some? ==> WaitInputOk(op.wait.value)
    requires id in s.records ==> Strong(s.records[id])
    ensures var s1 := Applied(size, s, On(id, op), clock);
            && id in s.records && s.records[id].phase == Prepared && id in s1.records && InFlight(s1.records[id])
            && s1.log == s.log && s1.senders == s.senders
  {
    LogGrows(size, s, On(id, op), clock);
    OkOn(size, s, On(id, op), clock);
    hide Strong, Readable, SaveError, Transact, Applied, RetainAll;
    var r := s.records[id];
    var kept := Retained(r, clock.boot, clock.tick(0));
    assert kept.phase == Prepared && r.phase == Prepared;
    RetainedKeepsStrong(r, clock.boot, clock.tick(0));
    AttemptKeepsStrong(kept, op.observe, op.ackRequested, op.cutoffNs, op.wait, clock);
    assert s.log + [] == s.log;
  }

  lemma FencePromotion(s: System, s1: System, pid: nat, ownWait: Option<string>)
    requires Inv(s) && Inv(s1) && pid < |s.senders| && s.senders[pid].stage.Holding?
    requires s1.senders == s.senders && s1.log == s.log
    requires s.records[s.senders[pid].id].phase == Prepared
    requires InFlight(s1.records[s.senders[pid].id])
    ensures Inv(WithSender(s1, pid, Fenced, ownWait))
  {
    hide AllStrong, ReceiptsOk, AuthorityOk;
    var s2 := WithSender(s1, pid, Fenced, ownWait);
    SendersDoNotMatter(s1, s2.senders);
    var id := s.senders[pid].id;
    forall q | 0 <= q < |s.senders| && Active(s.senders[q]) ensures s.senders[q].id != id {
      assert InFlight(s.records[s.senders[q].id]);
    }
    forall k | 0 <= k < |s.log| && s.log[k].Effect? ensures s.log[k].id != id { }
  }

  lemma CommitKeepsInv(size: Record -> nat, s: System, pid: nat, interrupted: bool, clock: Clock)
    requires Inv(s) && Enabled(s, CommitBy(pid, interrupted, clock))
    ensures Inv(Next(size, s, CommitBy(pid, interrupted, clock)))
  {
    hide AllStrong, EffectsOk, ReceiptsOk, AuthorityOk, InFlight, Transact;
    var p := s.senders[pid];
    var s1 := WithSender(s, pid, Finished, None);
    LeavingTheFence(s, pid, Finished, None);
    var change := CommitOf(p, interrupted);
    OutcomeFitsRecord(p, s.records[p.id].intent);
    assert Acceptable(s1.records, change, clock);
    if Transact(size, s1.epoch, s1.records, change, clock).Ok? {
      TransactionKeepsInv(size, s1, change, clock);
    }
  }

  // A reply checked against the sender's own arguments fits the stored intent.
  lemma OutcomeFitsRecord(p: Sender, i: Intent)
    requires p.stage.Returned? && OutcomeOk(p, p.stage.submission, p.stage.native) && Owns(p, i)
    ensures CommitOk(Commit(p.stage.submission, p.stage.native, p.remote, p.ownWait, false), i)
  {
    hide ValidResolution, IsIdentifier;
  }

  lemma NextKeepsInv(size: Record -> nat, s: System, step: Step)
    requires Inv(s) && Enabled(s, step)
    ensures Inv(Next(size, s, step))
  {
    hide Inv, Transact, InFlight, ValidNative;
    match step
    case Transaction(change, clock) =>
      if Transact(size, s.epoch, s.records, change, clock).Ok? { TransactionKeepsInv(size, s, change, clock); }
    case NewSender(id, binding, generation, context, remote, clock) =>
      NewSenderKeepsInv(size, s, step);
    case ResumeSender(id, binding, generation, context, remote, clock) =>
      ResumeKeepsInv(size, s, step);
    case AttemptBy(pid, observe, ackRequested, cutoff, wait, clock) =>
      var change := On(s.senders[pid].id, Attempt(observe, ackRequested, cutoff, wait));
      if Transact(size, s.epoch, s.records, change, clock).Ok? {
        EnteringTheFence(size, s, pid, change.op, clock, if wait.Some? then Some(wait.value.operationId) else None);
      } else {
        LeavingTheFence(s, pid, Finished, None);
      }
    case EffectBy(pid, submission, native) => EffectKeepsInv(s, pid, submission, native);
    case NoEffectBy(pid, submission, native) => LeavingTheFence(s, pid, Returned(submission, native), s.senders[pid].ownWait);
    case CommitBy(pid, interrupted, clock) => CommitKeepsInv(size, s, pid, interrupted, clock);
    case CrashOf(pid) => LeavingTheFence(s, pid, Finished, None);
  }

  lemma NewSenderKeepsInv(size: Record -> nat, s: System, step: Step)
    requires Inv(s) && step.NewSender? && Enabled(s, step)
    ensures Inv(Next(size, s, step))
  {
    hide Strong, SendersOk, EffectsOk, ReceiptsOk, AuthorityOk, Readable, SaveError;
    var change := Prepare(step.id, step.binding, step.generation, step.nativeContext);
    if Transact(size, s.epoch, s.records, change, step.clock).Ok? {
      TransactionKeepsInv(size, s, change, step.clock);
      TransactionStep(size, s.epoch, s.records, change, step.clock);
      LogGrows(size, s, change, step.clock);
      JoiningKeepsInv(Applied(size, s, change, step.clock),
        Sender(step.id, step.binding, step.generation, step.nativeContext, step.remote, Holding, None));
    }
  }

  lemma ResumeKeepsInv(size: Record -> nat, s: System, step: Step)
    requires Inv(s) && step.ResumeSender? && Enabled(s, step)
    ensures Inv(Next(size, s, step))
  {
    hide Strong, SendersOk, EffectsOk, ReceiptsOk, AuthorityOk, Readable, SaveError;
    var change := On(step.id, Resume(step.binding, step.generation, step.nativeContext));
    if Transact(size, s.epoch, s.records, change, step.clock).Ok? {
      TransactionKeepsInv(size, s, change, step.clock);
      OkOn(size, s, change, step.clock);
      LogGrows(size, s, change, step.clock);
      assert s.records[step.id].intent.id == step.id;
      JoiningKeepsInv(Applied(size, s, change, step.clock),
        Sender(step.id, step.binding, step.generation, step.nativeContext, step.remote, Holding, None));
    }
  }

  /* ----- results about runs ----- */

  // The step that leads to a state of a run.
  lemma RunStep(size: Record -> nat, states: seq<System>, steps: seq<Step>, i: nat)
    requires IsRun(size, states, steps) && 0 < i <= |steps|
    ensures |states| == |steps| + 1
    ensures Enabled(states[i - 1], steps[i - 1]) && states[i] == Next(size, states[i - 1], steps[i - 1])
  {
    hide Enabled, Next, Initial, IsUuid4;
  }

  lemma RunLength(size: Record -> nat, states: seq<System>, steps: seq<Step>)
    requires IsRun(size, states, steps)
    ensures |states| == |steps| + 1
  {
    hide Enabled, Next, Initial, IsUuid4;
  }

  lemma RunBegins(size: Record -> nat, states: seq<System>, steps: seq<Step>)
    requires IsRun(size, states, steps)
    ensures |states| == |steps| + 1 && IsUuid4(states[0].epoch) && states[0] == Initial(states[0].epoch)
  {
    hide Enabled, Next, Initial, IsUuid4;
  }

  lemma {:induction false} RunKeepsInv(size: Record -> nat, states: seq<System>, steps: seq<Step>, i: nat)
    requires IsRun(size, states, steps) && i <= |steps|
    ensures Inv(states[i])
    decreases i
  {
    hide *;
    RunBegins(size, states, steps);
    if i == 0 {
      InitialInv(states[0].epoch);
    } else {
      RunStep(size, states, steps, i);
      RunKeepsInv(size, states, steps, i - 1);
      NextKeepsInv(size, states[i - 1], steps[i - 1]);
    }
  }

  lemma InitialInv(epoch: string)
    requires IsUuid4(epoch)
    ensures Inv(Initial(epoch))
  {
  }

  lemma InvIsReadable(s: System)
    requires Inv(s)
    ensures forall id :: id in s.records ==> ValidRecord(s.records[id]) && Strong(s.records[id])
    ensures Readable(s.records)
  {
    hide ValidRecord, Strong, SendersOk, EffectsOk, ReceiptsOk, AuthorityOk, Readable;
    StrongIsReadable(s.records);
  }

  // No transaction of any run leaves, or meets, a record that fails the check.
  lemma LedgerNeverCorrupt(size: Record -> nat, states: seq<System>, steps: seq<Step>, i: nat, change: Change, clock: Clock)
    requires IsRun(size, states, steps) && i <= |steps|
    ensures forall id :: id in states[i].records ==> ValidRecord(states[i].records[id]) && Strong(states[i].records[id])
    ensures Transact(size, states[i].epoch, states[i].records, change, clock) != Err(LedgerCorrupt)
  {
    hide *;
    RunLength(size, states, steps);
    RunKeepsInv(size, states, steps, i);
    InvIsReadable(states[i]);
    NotCorruptAfterRead(size, states[i].epoch, states[i].records, change, clock);
  }

  lemma NotCorruptAfterRead(size: Record -> nat, epoch: string, records: Records, change: Change, clock: Clock)
    requires Readable(records)
    ensures Transact(size, epoch, records, change, clock) != Err(LedgerCorrupt)
  {
    NotCorrupt(epoch, RetainAll(records, clock), change, clock);
    hide ApplyChange, RetainAll, Readable;
  }

  lemma NotCorrupt(epoch: string, records: Records, change: Change, clock: Clock)
    ensures ApplyChange(epoch, records, change, clock) != Err(LedgerCorrupt)
  {
    hide IsUuid4, IsIdentifier, FindWait;
  }

  // Every reachable record, as stored or with expiry applied for a read-only
  // projection, is exported as a view that passes its check, except a
  // quarantined record whose last wait was satisfied before.
  lemma ExportsAreValid(size: Record -> nat, states: seq<System>, steps: seq<Step>, i: nat, id: string,
                        boot: Option<string>, readAt: int, activeClock: Option<string>, now: int)
    requires IsRun(size, states, steps) && i <= |steps| && id in states[i].records
    ensures var r := Retained(states[i].records[id], boot, readAt);
      ValidView(Public(states[i].epoch, r, activeClock, now)) <==>
      !(r.phase == Quarantined && LastWait(r).Some? && LastWait(r).value.status == Satisfied)
  {
    hide ValidView, Public;
    RunKeepsInv(size, states, steps, i);
    RetainedKeepsStrong(states[i].records[id], boot, readAt);
    PublicValidIff(states[i].epoch, Retained(states[i].records[id], boot, readAt), activeClock, now);
  }

  // Whatever the interleaving and the crashes, an intent has at most one
  // effect, performed for the destination the stored record names.
  lemma AtMostOneEffect(size: Record -> nat, states: seq<System>, steps: seq<Step>, i: nat, k: nat, m: nat)
    requires IsRun(size, states, steps) && i <= |steps|
    requires k < |states[i].log| && states[i].log[k].Effect?
    requires m < |states[i].log| && states[i].log[m].Effect? && states[i].log[k].id == states[i].log[m].id
    ensures k == m
    ensures states[i].log[k].id in states[i].records
    ensures EffectMatches(states[i].log[k], states[i].records[states[i].log[k].id].intent)
  {
    hide AllStrong, SendersOk, ReceiptsOk, AuthorityOk, Next, Enabled;
    RunKeepsInv(size, states, steps, i);
  }

  // The effect comes after its attempt was saved and before any outcome was.
  lemma EffectFollowsFence(size: Record -> nat, states: seq<System>, steps: seq<Step>, i: nat)
    requires IsRun(size, states, steps) && i < |steps| && steps[i].EffectBy?
    ensures steps[i].pid < |states[i].senders|
    ensures var p := states[i].senders[steps[i].pid];
      && p.id in states[i].records
      && states[i].records[p.id].phase in {Attempted, Tombstone, Quarantined}
      && states[i].records[p.id].submission == Unknown && states[i].records[p.id].native.None?
      && Owns(p, states[i].records[p.id].intent)
      && (forall k :: 0 <= k < |states[i].log| && states[i].log[k].Effect? ==> states[i].log[k].id != p.id)
  {
    RunKeepsInv(size, states, steps, i);
    assert Enabled(states[i], steps[i]);
    hide ReceiptsOk, AuthorityOk, Next, ValidIntent;
    var id := states[i].senders[steps[i].pid].id;
    assert Strong(states[i].records[id]);
  }

  ghost predicate Moves(s: System, s': System) {
    && s.erased <= s'.erased && s.log <= s'.log
    && forall id :: id in s.records ==>
         && id in s'.records && Persists(s.records[id], s'.records[id])
         && (id !in s'.erased ==> Advances(s.records[id], s'.records[id]))
  }

  lemma TransactionMoves(size: Record -> nat, s: System, change: Change, clock: Clock)
    requires Steppable(size, s, change, clock)
    ensures Moves(s, Applied(size, s, change, clock))
  {
    hide Strong, Persists, Advances, InFlight, Locked, Acceptable, SendersOk, EffectsOk, ReceiptsOk, AuthorityOk, Readable, SaveError, ApplyChange;
    TransactionStep(size, s.epoch, s.records, change, clock);
    LogGrows(size, s, change, clock);
    var s' := Applied(size, s, change, clock);
    forall id | id in s.records
      ensures id in s'.records && Persists(s.records[id], s'.records[id])
      ensures id !in s'.erased ==> Advances(s.records[id], s'.records[id])
    {
      assert RecordStep(s.records[id], s'.records[id], change, clock);
    }
  }

  lemma StandingStillMoves(s: System, s': System)
    requires s'.records == s.records && s.log <= s'.log && s'.erased == s.erased
    ensures Moves(s, s')
  {
  }

  lemma NextMoves(size: Record -> nat, s: System, step: Step)
    requires Inv(s) && Enabled(s, step)
    ensures Moves(s, Next(size, s, step))
  {
    hide Transact, InFlight, ValidNative, Moves, AllStrong, EffectsOk, ReceiptsOk, AuthorityOk;
    var s' := Next(size, s, step);
    if step.CommitBy? {
      var p := s.senders[step.pid];
      var s1 := WithSender(s, step.pid, Finished, None);
      LeavingTheFence(s, step.pid, Finished, None);
      OutcomeFitsRecord(p, s.records[p.id].intent);
      var change := CommitOf(p, step.interrupted);
      if Transact(size, s.epoch, s.records, change, step.clock).Ok? {
        TransactionMoves(size, s1, change, step.clock);
        SameMoves(s1, s', s, s');
      } else {
        StandingStillMoves(s, s');
      }
    } else if step.EffectBy? || step.NoEffectBy? || step.CrashOf? {
      StandingStillMoves(s, s');
    } else {
      var change := match step
        case Transaction(change, _) => change
        case NewSender(id, binding, generation, context, _, _) => Prepare(id, binding, generation, context)
        case ResumeSender(id, binding, generation, context, _, _) => On(id, Resume(binding, generation, context))
        case AttemptBy(pid, observe, ackRequested, cutoff, wait, _) => On(s.senders[pid].id, Attempt(observe, ackRequested, cutoff, wait))
        case _ => CollectorStart;
      if Transact(size, s.epoch, s.records, change, step.clock).Ok? {
        TransactionMoves(size, s, change, step.clock);
        SameMoves(s, Applied(size, s, change, step.clock), s, s');
      } else {
        StandingStillMoves(s, s');
      }
    }
  }

  lemma SameMoves(a: System, b: System, c: System, d: System)
    requires Moves(a, b)
    requires (a.records, a.log, a.erased) == (c.records, c.log, c.erased) && (b.records, b.log, b.erased) == (d.records, d.log, d.erased)
    ensures Moves(c, d)
  {
    hide Persists, Advances;
  }

  lemma MovesTransitive(a: System, b: System, c: System)
    requires Moves(a, b) && Moves(b, c)
    ensures Moves(a, c)
  {
    hide Persists, Advances;
    forall id | id in a.records
      ensures id in c.records && Persists(a.records[id], c.records[id])
      ensures id !in c.erased ==> Advances(a.records[id], c.records[id])
    {
      PersistsTransitive(a.records[id], b.records[id], c.records[id]);
      if id !in c.erased {
        AdvancesTransitive(a.records[id], b.records[id], c.records[id]);
      }
    }
  }

  // Along a run a record never changes its intent and never becomes prepared
  // again; and unless it was expired or quarantined, a wait that left pending
  // is final, an acknowledgement is never rewritten and a decided submission
  // stays decided.
  lemma {:induction false} RunMoves(size: Record -> nat, states: seq<System>, steps: seq<Step>, i: nat, j: nat)
    requires IsRun(size, states, steps) && i <= j <= |steps|
    ensures Moves(states[i], states[j])
    decreases j - i
  {
    hide *;
    RunLength(size, states, steps);
    if i == j {
      StandingStillMoves(states[i], states[i]);
    } else {
      RunStep(size, states, steps, j);
      RunMoves(size, states, steps, i, j - 1);
      RunKeepsInv(size, states, steps, j - 1);
      NextMoves(size, states[j - 1], steps[j - 1]);
      MovesTransitive(states[i], states[j - 1], states[j]);
    }
  }

  // All receipts ever accepted for one intent carry the same ID, and a token
  // acknowledgement carries that ID too.
  lemma OneReceiptPerIntent(size: Record -> nat, states: seq<System>, steps: seq<Step>, i: nat, k: nat, m: nat)
    requires IsRun(size, states, steps) && i <= |steps|
    requires k < |states[i].log| && states[i].log[k].Accepted?
    requires m < |states[i].log| && states[i].log[m].Accepted? && states[i].log[k].id == states[i].log[m].id
    ensures states[i].log[k].receiptId == states[i].log[m].receiptId
    ensures states[i].log[k].id in states[i].records
    ensures var r := states[i].records[states[i].log[k].id];
            HasTokenAck(r) ==> r.ack.value.receiptId == Some(states[i].log[k].receiptId)
  {
    hide AllStrong, SendersOk, EffectsOk, AuthorityOk, Next, Enabled;
    RunKeepsInv(size, states, steps, i);
  }

  // A stored token acknowledgement was classified by the collector epoch that
  // minted its authority, with that very token, while the authority stood
  // unrevoked and within a day of the preparation.
  lemma TokenAckIsJustified(size: Record -> nat, states: seq<System>, steps: seq<Step>, i: nat, id: string) returns (j: nat, k: nat)
    requires IsRun(size, states, steps) && i <= |steps|
    requires id in states[i].records && HasTokenAck(states[i].records[id])
    ensures j < k < |states[i].log|
    ensures states[i].log[k].Acked? && states[i].log[k].id == id
    ensures var e, r := states[i].log[k], states[i].records[id];
      && r.ack.value.receiptId == Some(e.receiptId) && r.ack.value.classifiedClockEpoch == Some(e.collector)
      && states[i].log[j] == MintedFor(id, e.hash, e.collector)
      && !e.authority.revoked && e.authority.hash == e.hash && e.authority.clockEpoch == e.collector
      && e.ns < r.intent.createdNs + DAY_NS
  {
    hide AllStrong, SendersOk, EffectsOk, ReceiptsOk, Next, Enabled;
    RunKeepsInv(size, states, steps, i);
    var s, a := states[i], states[i].records[id].ack.value;
    assert Recorded(s.log, id, a);
    k :| 0 <= k < |s.log| && s.log[k].Acked? && s.log[k].id == id
      && a.receiptId == Some(s.log[k].receiptId) && a.classifiedClockEpoch == Some(s.log[k].collector);
    assert Justified(s.log, k, s.records);
    j :| 0 <= j < |s.log[..k]| && s.log[..k][j] == MintedFor(id, s.log[k].hash, s.log[k].collector);
  }

  // Authority left unused at a collector start, or withdrawn in any other
  // way, never acknowledges anything later in the run.
  lemma DeadAuthorityStaysUnused(size: Record -> nat, states: seq<System>, steps: seq<Step>, i: nat, j: nat, id: string)
    requires IsRun(size, states, steps) && i <= j <= |steps|
    requires id in states[i].records && !HasTokenAck(states[i].records[id])
    requires Dead(states[i].records[id])
    ensures id in states[j].records && !HasTokenAck(states[j].records[id])
  {
    hide Advances, Next, Enabled;
    RunMoves(size, states, steps, i, j);
  }

  lemma CollectorStartKillsUnused(size: Record -> nat, s: System, clock: Clock, id: string)
    requires Transact(size, s.epoch, s.records, CollectorStart, clock).Ok?
    requires id in s.records && s.records[id].capability.Some? && s.records[id].ack.None?
    ensures var s' := Applied(size, s, CollectorStart, clock);
            id in s'.records && Dead(s'.records[id]) && !HasTokenAck(s'.records[id])
  {
    hide Readable, SaveError, Events, ValidRecord;
    var r := Retained(s.records[id], clock.boot, clock.tick(0));
    assert RetainAll(s.records, clock)[id] == r;
    assert Applied(size, s, CollectorStart, clock).records[id] == AfterCollectorStart(r);
  }

  // After a collector start, nothing it found without an acknowledgement is
  // ever acknowledged by a token in the run, whoever presents it and however
  // many collectors follow.
  lemma CollectorRestartIsFinal(size: Record -> nat, states: seq<System>, steps: seq<Step>, i: nat, j: nat, clock: Clock, id: string)
    requires IsRun(size, states, steps) && i < j <= |steps|
    requires steps[i] == Transaction(CollectorStart, clock)
    requires Transact(size, states[i].epoch, states[i].records, CollectorStart, clock).Ok?
    requires id in states[i].records && states[i].records[id].capability.Some? && states[i].records[id].ack.None?
    ensures id in states[j].records && !HasTokenAck(states[j].records[id])
  {
    hide Transact, Applied, Enabled, Dead, HasTokenAck;
    CollectorStartKillsUnused(size, states[i], clock, id);
    assert states[i + 1] == Next(size, states[i], steps[i]);
    DeadAuthorityStaysUnused(size, states, steps, i + 1, j, id);
  }
}
