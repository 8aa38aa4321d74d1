/** Whether the replay file that a run of the admission service leaves behind is
    accepted at the next start. */
module AdmissionFile {
  import opened Text
  import opened Json
  import opened Sequences
  import opened Admission
  import opened AdmissionRuns

  // Integers longer than this are not read from JSON text.
  const MAX_DIGITS := 4300

  /* ----- what every run keeps ----- */

  // Nothing in the file needs an escape, and no number is long.
  predicate Plain(s: Saved) {
    && JsonInt(s.revision) <= MAX_DIGITS && s.notBefore <= LATEST + QUIET_SECONDS + 1
    && (s.digest.Some? ==> IsDigest(s.digest.value))
    && forall k <- s.spent :: PlainText(k) && 0 <= s.spent[k] <= LATEST + SKEW_SECONDS + TICKET_SECONDS
  }

  predicate Kept(s: Saved, plain: bool) {
    InShape(s) && (plain ==> Plain(s))
  }

  predicate PlainPublication(p: Publication) {
    JsonInt(p.revision) <= MAX_DIGITS
  }

  // What can be said of an event before it happens.
  predicate PlainEvent(e: Event) {
    match e
    case Bootstrap(now, _) => now <= LATEST as real
    case Read(p, _, _) => PlainPublication(p)
    case Use(r) =>
      && PlainPublication(r.first) && PlainPublication(r.second)
      && PlainText(r.ticket.jti) && r.times.1 <= LATEST as real
    case _ => true
  }

  predicate StoredKept(s: Stored, plain: bool) {
    Kept(s.memory, plain) && (s.disk.Contents? ==> Kept(s.disk.saved, plain))
  }

  lemma ReadKeeps(s: Stored, p: Publication, durable: bool, now: real, w: Write, plain: bool)
    requires StoredKept(s, plain) && IsDigest(p.digest) && (plain ==> PlainPublication(p))
    ensures StoredKept(ReadState(s, p, durable, now, w).0, plain)
  {
  }

  lemma LiveIsSmaller(spent: map<string, int>, now: real)
    ensures |Live(spent, now)| <= |spent| && Live(spent, now).Keys <= spent.Keys
  {
    SubsetSize(Live(spent, now).Keys, spent.Keys);
  }

  lemma {:induction false} SubsetSize(a: set<string>, b: set<string>)
    requires a <= b
    ensures |a| <= |b|
  {
    if a != {} {
      var x :| x in a;
      SubsetSize(a - {x}, b - {x});
    }
  }

  lemma SpendKeeps(saved: Saved, t: Ticket, now: real, plain: bool)
    requires Kept(saved, plain) && ClaimsOk(t, saved, now) && 0.0 <= now
    requires plain ==> PlainText(t.jti) && now <= LATEST as real
    requires t.jti !in Live(saved.spent, now) && |Live(saved.spent, now)| < CAPACITY
    ensures Kept(saved.(spent := Live(saved.spent, now)[t.jti := t.exp]), plain)
  {
    LiveIsSmaller(saved.spent, now);
    var live := Live(saved.spent, now);
    assert |live[t.jti := t.exp]| == |live| + 1;
    assert forall k <- live :: k in saved.spent && live[k] == saved.spent[k];
  }

  lemma RequestKeeps(s: Stored, r: Request, durable: bool, plain: bool)
    requires StoredKept(s, plain) && IsDigest(r.first.digest) && IsDigest(r.second.digest) && 0.0 <= r.times.1
    requires plain ==> PlainEvent(Use(r))
    ensures StoredKept(Authorize(s, r, durable).0, plain)
  {
    ReadKeeps(s, r.first, durable, r.times.0, r.writes.0, plain);
    var s1 := ReadState(s, r.first, durable, r.times.0, r.writes.0).0;
    ReadKeeps(s1, r.second, durable, r.times.2, r.writes.1, plain);
    var s2 := ReadState(s1, r.second, durable, r.times.2, r.writes.1).0;
    assert s2.memory.notBefore == s1.memory.notBefore;
    hide ReadState, InShape, Plain, Live;
    var live := Live(s2.memory.spent, r.times.1);
    if r.ticket.jti !in live && |live| < CAPACITY && ClaimsOk(r.ticket, s2.memory, r.times.1) {
      SpendKeeps(s2.memory, r.ticket, r.times.1, plain);
    }
  }

  predicate FileInv(s: System, plain: bool) {
    && 0.0 <= s.clock
    && (s.memory.Some? ==> Kept(s.memory.value, plain))
    && (s.disk.Contents? ==> Kept(s.disk.saved, plain))
  }

  lemma StepKeeps(s: System, e: Event, durable: bool, plain: bool)
    requires FileInv(s, plain) && Enabled(s, e) && (plain ==> PlainEvent(e))
    ensures FileInv(Step(s, e, durable), plain)
  {
    match e
    case Use(r) => RequestKeeps(Stored(s.memory.value, s.disk), r, durable, plain);
    case Read(p, now, w) => ReadKeeps(Stored(s.memory.value, s.disk), p, durable, now, w, plain);
    case _ =>
  }

  lemma {:induction false} RunKeeps(s: System, events: seq<Event>, durable: bool, plain: bool)
    requires FileInv(s, plain) && Valid(s, events, durable)
    requires plain ==> forall e <- events :: PlainEvent(e)
    ensures FileInv(Run(s, events, durable), plain)
    decreases |events|
  {
    if events != [] {
      StepKeeps(s, events[0], durable, plain);
      RunKeeps(Step(s, events[0], durable), events[1..], durable, plain);
    }
  }

  /* ----- when the next start accepts it ----- */

  // Over any run: only the length of the file decides whether the next start
  // accepts what the operator or the service completely wrote.
  lemma FileLoadsIff(events: seq<Event>)
    requires Valid(BEGIN, events, true)
    ensures var end := Run(BEGIN, events, true);
            end.memory.None? && end.disk.Contents? ==>
              Step(end, Start, true).memory
                == if FileLength(end.disk.saved) <= READ_LIMIT then Some(end.disk.saved) else None
  {
    RunKeeps(BEGIN, events, true, false);
  }

  lemma {:induction false} PlainSpentLength(spent: map<string, int>)
    requires forall k <- spent ::
      PlainText(k) && |k| <= 128 && 0 <= spent[k] <= LATEST + SKEW_SECONDS + TICKET_SECONDS
    ensures SpentLength(spent) <= 145 * |spent|
    decreases |spent|
  {
    if spent != map[] {
      var k :| k in spent;
      SpentRemove(spent, k);
      PlainJson(k);
      JsonIntBound(spent[k]);
      assert forall x <- spent - {k} :: x in spent && (spent - {k})[x] == spent[x];
      PlainSpentLength(spent - {k});
    }
  }

  lemma DigestLength(d: string)
    requires IsDigest(d)
    ensures AsciiText(d) == 66
  {
    PlainJson(d);
  }

  lemma PlainFits(s: Saved)
    requires InShape(s) && Plain(s)
    ensures FileLength(s) <= READ_LIMIT
  {
    PlainSpentLength(s.spent);
    JsonIntBound(s.notBefore);
    if s.digest.Some? {
      DigestLength(s.digest.value);
    }
  }

  // When no ticket ID needs an escape the file always loads, however full the
  // list of used tickets is.
  lemma PlainTicketsLoad(events: seq<Event>)
    requires Valid(BEGIN, events, true) && forall e <- events :: PlainEvent(e)
    ensures var end := Run(BEGIN, events, true);
            end.memory.None? && end.disk.Contents? ==> Step(end, Start, true).memory == Some(end.disk.saved)
  {
    RunKeeps(BEGIN, events, true, true);
    var end := Run(BEGIN, events, true);
    if end.disk.Contents? {
      PlainFits(end.disk.saved);
    }
  }

  /* ----- a run that locks the service out of its own file ----- */

  // Ticket IDs of 128 characters, none of them ASCII: 768 characters of text.
  function LongJti(k: nat): string
    requires k <= CAPACITY
  {
    [(0x4E00 + k) as char] + Repeated('\U{E9}', 127)
  }

  function LongUse(k: nat): Event
    requires k <= CAPACITY
  {
    Use(Request(Ticket(LongJti(k), 170, 200), true, true, STATE, STATE, true,
                (170.0, 170.0, 170.0), (Written, Written, Written)))
  }

  function LongUses(k: nat, n: nat): seq<Event>
    requires k <= n <= CAPACITY
    decreases n - k
  {
    if k == n then [] else [LongUse(k)] + LongUses(k + 1, n)
  }

  function Full(k: nat): map<string, int>
    requires k <= CAPACITY
  {
    if k == 0 then map[] else Full(k - 1)[LongJti(k - 1) := 200]
  }

  function Filled(k: nat): Saved
    requires k <= CAPACITY
  {
    Saved(Full(k), 1, Some(DIGEST), 165)
  }

  lemma {:induction false} NotYetUsed(k: nat, j: nat)
    requires k <= j <= CAPACITY
    ensures LongJti(j) !in Full(k)
  {
    if k > 0 {
      NotYetUsed(k - 1, j);
      assert LongJti(j)[0] != LongJti(k - 1)[0];
    }
  }

  lemma LongEntry(k: nat)
    requires k <= CAPACITY
    ensures |LongJti(k)| == 128 && EntryLength(LongJti(k), 200) == 775
  {
    WideChars(LongJti(k));
    assert Digits(200) == 1 + Digits(20) == 2 + Digits(2);
  }

  lemma {:induction false} FullFacts(k: nat)
    requires k <= CAPACITY
    ensures |Full(k)| == k && SpentLength(Full(k)) == 775 * k
    ensures forall x <- Full(k) :: Full(k)[x] == 200
  {
    if k > 0 {
      FullFacts(k - 1);
      NotYetUsed(k - 1, k - 1);
      LongEntry(k - 1);
      SpentRemove(Full(k), LongJti(k - 1));
      assert Full(k) - {LongJti(k - 1)} == Full(k - 1);
    }
  }

  lemma {:induction false} ShapeOfFilled(k: nat)
    requires k <= CAPACITY
    ensures InShape(Filled(k))
  {
    FullFacts(k);
    if k > 0 {
      ShapeOfFilled(k - 1);
      LongEntry(k - 1);
    }
  }

  lemma {:induction false} NoLoss(k: nat, n: nat)
    requires k <= n <= CAPACITY
    ensures LoseFile !in LongUses(k, n)
    decreases n - k
  {
    if k < n {
      NoLoss(k + 1, n);
    }
  }

  lemma UseOnce(s: System, k: nat)
    requires k < CAPACITY && s.memory == Some(Filled(k)) && s.disk == Contents(Filled(k)) && s.clock <= 170.0
    ensures Enabled(s, LongUse(k))
    ensures var next := Step(s, LongUse(k), true);
            next.memory == Some(Filled(k + 1)) && next.disk == Contents(Filled(k + 1)) && next.clock == 170.0
  {
    var stored := Stored(Filled(k), Contents(Filled(k)));
    assert ReadState(stored, STATE, true, 170.0, Written) == (stored, None);
    FullFacts(k);
    NotYetUsed(k, k);
    LongEntry(k);
    assert Live(Full(k), 170.0) == Full(k);
    var r := LongUse(k).r;
    assert ClaimsOk(r.ticket, Filled(k), 170.0);
    assert Authorize(stored, r, true).0 == Stored(Filled(k + 1), Contents(Filled(k + 1)));
  }

  lemma {:induction false} UseMany(s: System, k: nat, n: nat)
    requires k <= n <= CAPACITY && s.memory == Some(Filled(k)) && s.disk == Contents(Filled(k)) && s.clock <= 170.0
    ensures Valid(s, LongUses(k, n), true)
    ensures var end := Run(s, LongUses(k, n), true); end.memory == Some(Filled(n)) && end.disk == Contents(Filled(n))
    decreases n - k
  {
    if k < n {
      UseOnce(s, k);
      var next := Step(s, LongUse(k), true);
      UseMany(next, k + 1, n);
      hide Step, Enabled, Filled;
      OneStep(s, LongUse(k), LongUses(k + 1, n), next);
    }
  }

  lemma FilledTooLongIff(n: nat)
    requires n <= CAPACITY
    ensures FileLength(Filled(n)) > READ_LIMIT <==> n >= 338
  {
    FullFacts(n);
    assert FrameLength(Filled(n)) == 144 + if n > 1 then 2 * (n - 1) else 0 by {
      LongFrame(n);
    }
  }

  lemma LongFrame(n: nat)
    requires n <= CAPACITY && |Full(n)| == n
    ensures FrameLength(Filled(n)) == 144 + if n > 1 then 2 * (n - 1) else 0
  {
    assert Digits(165) == 1 + Digits(16) == 2 + Digits(1);
    hide AsciiText;
    DigestLength(DIGEST);
  }

  // Runs glued together: up to the stop, then the stop.
  lemma StopAfter(s: System, events: seq<Event>)
    requires Valid(s, events, true) && Run(s, events, true).memory.Some?
    ensures Valid(s, events + [Stop], true)
    ensures Run(s, events + [Stop], true) == Run(s, events, true).(memory := None)
  {
    var before := Run(s, events, true);
    var after := before.(memory := None);
    assert Enabled(before, Stop) && Step(before, Stop, true) == after;
    assert Valid(after, [], true) && Run(after, [], true) == after;
    hide *;
    OneStep(before, Stop, [], after);
    assert [Stop] + [] == [Stop];
    RunJoins(s, events, [Stop]);
  }

  lemma Opened() returns (events: seq<Event>)
    ensures Valid(BEGIN, events, true) && LoseFile !in events
    ensures var s := Run(BEGIN, events, true);
            s.memory == Some(Filled(0)) && s.disk == Contents(Filled(0)) && s.clock == 100.0
  {
    var s := FreshAccepts(BEGIN, STATE);
    events := [Bootstrap(100.0, true), Start, Read(STATE, 100.0, Written)];
    assert Seen(STATE) == Filled(0);
    hide *;
  }

  // Admitted tickets with long IDs outside ASCII, then a clean stop: from the
  // 338th ticket on the service can no longer start from the file it wrote.
  lemma LongTicketsLockOut(n: nat) returns (events: seq<Event>)
    requires n <= CAPACITY
    ensures Valid(BEGIN, events, true) && LoseFile !in events
    ensures var end := Run(BEGIN, events, true);
            && end.memory.None? && end.disk == Contents(Filled(n))
            && (Step(end, Start, true).memory == None <==> n >= 338)
  {
    hide *;
    var opening := Opened();
    var uses := LongUses(0, n);
    NoLoss(0, n);
    UseMany(Run(BEGIN, opening, true), 0, n);
    RunJoins(BEGIN, opening, uses);
    StopAfter(BEGIN, opening + uses);
    events := opening + uses + [Stop];
    StartsIff(Run(BEGIN, events, true), n);
  }

  lemma StartsIff(s: System, n: nat)
    requires n <= CAPACITY && s.memory.None? && s.disk == Contents(Filled(n))
    ensures Step(s, Start, true).memory == None <==> n >= 338
  {
    FilledTooLongIff(n);
    ShapeOfFilled(n);
    hide Filled, FileLength, InShape;
  }
}
