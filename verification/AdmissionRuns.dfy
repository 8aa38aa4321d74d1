/** Runs of the admission service: restarts, failed writes, lost and
    re-initialised replay files, under a clock that never goes back. */
module AdmissionRuns {
  import opened Text
  import opened Json
  import opened Sequences
  import opened Admission

  // Clock readings up to here have few digits: the year 33658.
  const LATEST := 1000000000000

  lemma JsonIntBound(n: int)
    requires 0 <= n <= LATEST + SKEW_SECONDS + TICKET_SECONDS + QUIET_SECONDS
    ensures JsonInt(n) <= 13
  {
    assert Pow10(13) == 10 * Pow10(12) == 100 * Pow10(11) == 1000 * Pow10(10) == 10000 * Pow10(9);
    assert Pow10(9) == 10 * Pow10(8) == 100 * Pow10(7) == 1000 * Pow10(6) == 10000 * Pow10(5);
    assert Pow10(5) == 10 * Pow10(4) == 100 * Pow10(3) == 1000 * Pow10(2) == 100000;
    DigitsBound(n, 13);
  }

  datatype Admitted = Admitted(ticket: Ticket, at: real)

  // The service's memory while it runs, the replay file, the clock, what was
  // admitted and which published states were accepted, oldest first.
  datatype System = System(memory: Option<Saved>, disk: Disk, clock: real, log: seq<Admitted>, accepted: seq<Publication>)

  datatype Event =
    | Start
    | Stop
    | Bootstrap(now: real, complete: bool)
    | LoseFile
    | Read(p: Publication, now: real, w: Write)
    | Use(r: Request)

  // Clock readings go forward, and a digest is one.
  predicate Enabled(s: System, e: Event) {
    match e
    case Start => s.memory.None?
    case Stop => s.memory.Some?
    case Bootstrap(now, _) => s.clock <= now
    case LoseFile => true
    case Read(p, now, _) => s.memory.Some? && s.clock <= now && IsDigest(p.digest)
    case Use(r) =>
      && s.memory.Some? && s.clock <= r.times.0 <= r.times.1 <= r.times.2
      && IsDigest(r.first.digest) && IsDigest(r.second.digest)
  }

  // The published states a request's two readings accept.
  function Readings(s: Stored, r: Request, durable: bool): seq<Publication> {
    var (s1, d1) := ReadState(s, r.first, durable, r.times.0, r.writes.0);
    if d1.Some? then []
    else if !r.signed || !ClaimsOk(r.ticket, s1.memory, r.times.1) || !r.proven then [r.first]
    else
      var (_, d2) := ReadState(s1, r.second, durable, r.times.2, r.writes.1);
      if d2.Some? then [r.first] else [r.first, r.second]
  }

  ghost function Step(s: System, e: Event, durable: bool): System
    requires Enabled(s, e)
  {
    match e
    case Start =>
      if !durable then s.(memory := Some(EMPTY))
      else if s.disk.Contents? && Loadable(s.disk.saved) then s.(memory := Some(s.disk.saved))
      else s
    case Stop => s.(memory := None)
    case Bootstrap(now, complete) =>
      if s.disk != Missing then s.(clock := now)
      else s.(clock := now, disk := if complete then Contents(Initial(now)) else Corrupt)
    case LoseFile => s.(disk := Missing)
    case Read(p, now, w) =>
      var (after, denial) := ReadState(Stored(s.memory.value, s.disk), p, durable, now, w);
      System(Some(after.memory), after.disk, now, s.log, if denial.None? then s.accepted + [p] else s.accepted)
    case Use(r) =>
      var stored := Stored(s.memory.value, s.disk);
      var (after, denial) := Authorize(stored, r, durable);
      System(Some(after.memory), after.disk, r.times.2,
             if denial.None? then s.log + [Admitted(r.ticket, r.times.1)] else s.log,
             s.accepted + Readings(stored, r, durable))
  }

  ghost predicate Valid(s: System, events: seq<Event>, durable: bool)
    decreases |events|
  {
    events == [] || (Enabled(s, events[0]) && Valid(Step(s, events[0], durable), events[1..], durable))
  }

  ghost function Run(s: System, events: seq<Event>, durable: bool): System
    requires Valid(s, events, durable)
    decreases |events|
  {
    if events == [] then s else Run(Step(s, events[0], durable), events[1..], durable)
  }

  const BEGIN := System(None, Missing, 0.0, [], [])

  predicate Distinct(log: seq<Admitted>) {
    forall i, j :: 0 <= i < j < |log| ==> log[i].ticket != log[j].ticket
  }

  /* ----- what keeps an admitted ticket from being admitted again ----- */

  // Expired, remembered long enough, or issued before the quiet period ended.
  predicate Blocked(t: Ticket, saved: Saved, clock: real) {
    || t.exp as real <= clock
    || (t.jti in saved.spent && saved.spent[t.jti] >= t.exp)
    || t.iat < saved.notBefore
  }

  predicate AllBlocked(log: seq<Admitted>, saved: Saved, clock: real) {
    forall a <- log :: Blocked(a.ticket, saved, clock)
  }

  predicate DiskBlocked(log: seq<Admitted>, disk: Disk, clock: real) {
    disk.Contents? ==> AllBlocked(log, disk.saved, clock)
  }

  predicate LogTimed(log: seq<Admitted>, clock: real) {
    forall a <- log :: a.at <= clock && a.ticket.iat as real <= a.at + SKEW_SECONDS as real
  }

  predicate TicketInv(s: System) {
    && (s.memory.Some? ==> AllBlocked(s.log, s.memory.value, s.clock))
    && DiskBlocked(s.log, s.disk, s.clock)
    && LogTimed(s.log, s.clock)
    && Distinct(s.log)
  }

  lemma LaterBlocked(log: seq<Admitted>, saved: Saved, clock: real, later: real)
    requires AllBlocked(log, saved, clock) && clock <= later
    ensures AllBlocked(log, saved, later)
  {
  }

  // Pruning by expiry never forgets a live ticket.
  lemma SpendKeepsBlocked(log: seq<Admitted>, saved: Saved, clock: real, now: real, jti: string, exp: int)
    requires AllBlocked(log, saved, clock) && clock <= now && jti !in Live(saved.spent, now)
    ensures AllBlocked(log, saved.(spent := Live(saved.spent, now)[jti := exp]), now)
  {
    var next := saved.(spent := Live(saved.spent, now)[jti := exp]);
    forall a <- log ensures Blocked(a.ticket, next, now) {
      assert Blocked(a.ticket, saved, clock);
    }
  }

  lemma ReadKeepsBlocked(log: seq<Admitted>, s: Stored, p: Publication, durable: bool, now: real, w: Write, clock: real)
    requires AllBlocked(log, s.memory, clock) && DiskBlocked(log, s.disk, clock)
    ensures var after := ReadState(s, p, durable, now, w).0;
            && AllBlocked(log, after.memory, clock) && DiskBlocked(log, after.disk, clock)
            && after.memory.spent == s.memory.spent && after.memory.notBefore == s.memory.notBefore
  {
    var next := s.memory.(revision := p.revision, digest := Some(p.digest));
    assert forall a <- log :: Blocked(a.ticket, s.memory, clock) ==> Blocked(a.ticket, next, clock);
  }

  // What a request that is admitted has passed, and where it is remembered.
  lemma AdmittedFacts(s: Stored, r: Request, durable: bool)
    requires Authorize(s, r, durable).1.None?
    ensures ClaimsOk(r.ticket, s.memory, r.times.1) && r.ticket.jti !in Live(s.memory.spent, r.times.1)
    ensures var after := Authorize(s, r, durable).0;
            && r.ticket.jti in after.memory.spent && after.memory.spent[r.ticket.jti] == r.ticket.exp
            && (durable ==> after.disk == Contents(after.memory))
  {
  }

  lemma RequestKeepsBlocked(log: seq<Admitted>, s: Stored, r: Request, durable: bool, clock: real)
    requires AllBlocked(log, s.memory, clock) && DiskBlocked(log, s.disk, clock)
    requires clock <= r.times.0 <= r.times.1 <= r.times.2
    ensures var after := Authorize(s, r, durable).0;
            AllBlocked(log, after.memory, r.times.2) && DiskBlocked(log, after.disk, r.times.2)
  {
    ReadKeepsBlocked(log, s, r.first, durable, r.times.0, r.writes.0, clock);
    var s1 := ReadState(s, r.first, durable, r.times.0, r.writes.0).0;
    ReadKeepsBlocked(log, s1, r.second, durable, r.times.2, r.writes.1, clock);
    var s2 := ReadState(s1, r.second, durable, r.times.2, r.writes.1).0;
    hide ReadState, CheckPublication, ClaimsOk, Blocked;
    forall stored | stored in {s1, s2}
      ensures AllBlocked(log, stored.memory, r.times.2) && DiskBlocked(log, stored.disk, r.times.2)
    {
      StoredLater(log, stored, clock, r.times.2);
    }
    if r.ticket.jti !in Live(s2.memory.spent, r.times.1) {
      SpendKeepsBlocked(log, s2.memory, clock, r.times.1, r.ticket.jti, r.ticket.exp);
      var next := s2.memory.(spent := Live(s2.memory.spent, r.times.1)[r.ticket.jti := r.ticket.exp]);
      LaterBlocked(log, next, r.times.1, r.times.2);
    }
  }

  lemma StoredLater(log: seq<Admitted>, s: Stored, clock: real, later: real)
    requires AllBlocked(log, s.memory, clock) && DiskBlocked(log, s.disk, clock) && clock <= later
    ensures AllBlocked(log, s.memory, later) && DiskBlocked(log, s.disk, later)
  {
    LaterBlocked(log, s.memory, clock, later);
    if s.disk.Contents? { LaterBlocked(log, s.disk.saved, clock, later); }
  }

  lemma NewTicketIsNew(log: seq<Admitted>, s: Stored, r: Request, durable: bool, clock: real)
    requires AllBlocked(log, s.memory, clock) && clock <= r.times.0 <= r.times.1
    requires Authorize(s, r, durable).1.None?
    ensures forall a <- log :: a.ticket != r.ticket
  {
    AdmittedFacts(s, r, durable);
    forall a <- log ensures a.ticket != r.ticket {
      assert Blocked(a.ticket, s.memory, clock);
    }
  }

  lemma UseKeepsInv(s: System, r: Request)
    requires TicketInv(s) && Enabled(s, Use(r))
    ensures TicketInv(Step(s, Use(r), true))
  {
    var stored := Stored(s.memory.value, s.disk);
    RequestKeepsBlocked(s.log, stored, r, true, s.clock);
    var (after, denial) := Authorize(stored, r, true);
    if denial.None? {
      NewTicketIsNew(s.log, stored, r, true, s.clock);
      AdmittedFacts(stored, r, true);
      hide Authorize, Readings;
      var log := s.log + [Admitted(r.ticket, r.times.1)];
      assert AllBlocked(log, after.memory, r.times.2);
      assert LogTimed(log, r.times.2);
      assert Distinct(log);
    }
  }

  // A new file starts with a quiet period that outlasts every ticket so far.
  lemma BootstrapBlocks(log: seq<Admitted>, clock: real, now: real)
    requires LogTimed(log, clock) && clock <= now
    ensures AllBlocked(log, Initial(now), now)
  {
    forall a <- log ensures Blocked(a.ticket, Initial(now), now) {
      assert a.ticket.iat as real <= now + 5.0 < (Ceil(now) + 65) as real;
    }
  }

  lemma StepKeepsInv(s: System, e: Event)
    requires TicketInv(s) && Enabled(s, e)
    ensures TicketInv(Step(s, e, true))
  {
    match e
    case Use(r) => UseKeepsInv(s, r);
    case Read(p, now, w) =>
      var stored := Stored(s.memory.value, s.disk);
      ReadKeepsBlocked(s.log, stored, p, true, now, w, s.clock);
      StoredLater(s.log, ReadState(stored, p, true, now, w).0, s.clock, now);
    case Bootstrap(now, complete) =>
      BootstrapBlocks(s.log, s.clock, now);
      if s.memory.Some? { LaterBlocked(s.log, s.memory.value, s.clock, now); }
      if s.disk.Contents? { LaterBlocked(s.log, s.disk.saved, s.clock, now); }
    case _ =>
  }

  lemma {:induction false} RunKeepsInv(s: System, events: seq<Event>)
    requires TicketInv(s) && Valid(s, events, true)
    ensures TicketInv(Run(s, events, true))
    decreases |events|
  {
    if events != [] {
      StepKeepsInv(s, events[0]);
      RunKeepsInv(Step(s, events[0], true), events[1..]);
    }
  }

  ghost predicate SingleUse(durable: bool) {
    forall events :: Valid(BEGIN, events, durable) ==> Distinct(Run(BEGIN, events, durable).log)
  }

  // With a replay file no ticket is admitted twice over any run. Without one
  // the law fails, by a restart.
  lemma SingleUseIffReplayFile(durable: bool)
    ensures SingleUse(durable) <==> durable
  {
    forall events | Valid(BEGIN, events, true) ensures Distinct(Run(BEGIN, events, true).log) {
      RunKeepsInv(BEGIN, events);
    }
    RestartReuses();
  }

  const DIGEST: string := Repeated('a', 64)
  const STATE := Publication(true, 100.0, 200.0, 1, DIGEST)
  const TICKET := Ticket("0123456789abcdef", 100, 150)
  const REQUEST := Request(TICKET, true, true, STATE, STATE, true, (100.0, 100.0, 100.0), (Written, Written, Written))
  const REUSE := [Start, Use(REQUEST), Stop, Start, Use(REQUEST)]

  lemma FreshUse(s: System)
    requires s.memory == Some(EMPTY) && s.clock <= 100.0
    ensures Enabled(s, Use(REQUEST))
    ensures Step(s, Use(REQUEST), false).log == s.log + [Admitted(TICKET, 100.0)]
    ensures Step(s, Use(REQUEST), false).clock == 100.0 && Step(s, Use(REQUEST), false).memory.Some?
  {
    var stored := Stored(EMPTY, s.disk);
    var first := ReadState(stored, STATE, false, 100.0, Written);
    assert first == (Stored(EMPTY.(revision := 1, digest := Some(DIGEST)), s.disk), None);
    assert ReadState(first.0, STATE, false, 100.0, Written) == (first.0, None);
    assert Live(map[], 100.0) == map[];
  }

  lemma RestartReuses()
    ensures Valid(BEGIN, REUSE, false) && !Distinct(Run(BEGIN, REUSE, false).log)
  {
    var s1 := Step(BEGIN, Start, false);
    FreshUse(s1);
    var s2 := Step(s1, Use(REQUEST), false);
    var s3 := Step(s2, Stop, false);
    var s4 := Step(s3, Start, false);
    FreshUse(s4);
    var s5 := Step(s4, Use(REQUEST), false);
    hide Step;
    assert REUSE[1..] == [Use(REQUEST), Stop, Start, Use(REQUEST)];
    assert REUSE[1..][1..] == [Stop, Start, Use(REQUEST)];
    assert REUSE[1..][1..][1..] == [Start, Use(REQUEST)];
    assert REUSE[1..][1..][1..][1..] == [Use(REQUEST)];
    assert REUSE[1..][1..][1..][1..][1..] == [];
    assert Valid(s5, [], false) && Run(s5, [], false) == s5;
    assert Valid(s4, [Use(REQUEST)], false) && Run(s4, [Use(REQUEST)], false) == s5;
    assert Valid(s3, [Start, Use(REQUEST)], false) && Run(s3, [Start, Use(REQUEST)], false) == s5;
    assert Valid(s2, [Stop, Start, Use(REQUEST)], false) && Run(s2, [Stop, Start, Use(REQUEST)], false) == s5;
    assert Valid(s1, [Use(REQUEST), Stop, Start, Use(REQUEST)], false);
    assert s5.log[0].ticket == s5.log[1].ticket;
  }

  /* ----- accepted states never go back ----- */

  // Every accepted state is at or below what is remembered.
  predicate Covered(ps: seq<Publication>, saved: Saved) {
    forall p <- ps :: 0 < p.revision <= saved.revision && (p.revision == saved.revision ==> Some(p.digest) == saved.digest)
  }

  predicate Ordered(ps: seq<Publication>) {
    forall i, j :: 0 <= i < j < |ps| ==>
      ps[i].revision <= ps[j].revision && (ps[i].revision == ps[j].revision ==> ps[i].digest == ps[j].digest)
  }

  predicate StoredCovers(ps: seq<Publication>, s: Stored) {
    && Covered(ps, s.memory) && s.disk.Contents? && Covered(ps, s.disk.saved)
    && s.memory.revision <= s.disk.saved.revision
    && (s.memory.revision == s.disk.saved.revision ==> s.memory.digest == s.disk.saved.digest)
  }

  lemma ReadKeepsOrder(ps: seq<Publication>, s: Stored, p: Publication, now: real, w: Write)
    requires StoredCovers(ps, s) && Ordered(ps)
    ensures var (after, denial) := ReadState(s, p, true, now, w);
            var qs := if denial.None? then ps + [p] else ps;
            StoredCovers(qs, after) && Ordered(qs)
  {
  }

  // Spending a ticket leaves the remembered revision alone.
  lemma SpendKeepsOrder(ps: seq<Publication>, s: Stored, spent: map<string, int>, w: Write)
    requires StoredCovers(ps, s)
    ensures StoredCovers(ps, Persist(s, s.memory.(spent := spent), true, w))
  {
  }

  lemma AuthorizeShape(s: Stored, r: Request, s1: Stored, s2: Stored)
    requires s1 == ReadState(s, r.first, true, r.times.0, r.writes.0).0
    requires s2 == ReadState(s1, r.second, true, r.times.2, r.writes.1).0
    ensures var after := Authorize(s, r, true).0;
            var spent := Live(s2.memory.spent, r.times.1)[r.ticket.jti := r.ticket.exp];
            var d1 := ReadState(s, r.first, true, r.times.0, r.writes.0).1;
            var d2 := ReadState(s1, r.second, true, r.times.2, r.writes.1).1;
            || (Readings(s, r, true) == [] && d1.Some? && after == s1)
            || (Readings(s, r, true) == [r.first] && d1.None? && after == s1)
            || (Readings(s, r, true) == [r.first] && d1.None? && d2.Some? && after == s2)
            || (Readings(s, r, true) == [r.first, r.second] && d1.None? && d2.None?
                && (after == s2 || after == Persist(s2, s2.memory.(spent := spent), true, r.writes.2)))
  {
    hide ReadState, Live, ClaimsOk;
  }

  lemma RequestKeepsOrder(ps: seq<Publication>, s: Stored, r: Request)
    requires StoredCovers(ps, s) && Ordered(ps)
    ensures StoredCovers(ps + Readings(s, r, true), Authorize(s, r, true).0) && Ordered(ps + Readings(s, r, true))
  {
    ReadKeepsOrder(ps, s, r.first, r.times.0, r.writes.0);
    var (s1, d1) := ReadState(s, r.first, true, r.times.0, r.writes.0);
    var (s2, d2) := ReadState(s1, r.second, true, r.times.2, r.writes.1);
    AuthorizeShape(s, r, s1, s2);
    var spent := Live(s2.memory.spent, r.times.1)[r.ticket.jti := r.ticket.exp];
    hide ReadState, StoredCovers, Ordered, Authorize, Readings, Live, Persist;
    assert ps + [] == ps;
    if d1.None? {
      var qs := ps + [r.first];
      ReadKeepsOrder(qs, s1, r.second, r.times.2, r.writes.1);
      assert ps + [r.first, r.second] == qs + [r.second];
      if d2.None? {
        SpendKeepsOrder(qs + [r.second], s2, spent, r.writes.2);
      }
    }
  }

  // While the file is not lost.
  predicate OrderInv(s: System) {
    && Ordered(s.accepted)
    && (s.memory.Some? ==> StoredCovers(s.accepted, Stored(s.memory.value, s.disk)))
    && (s.disk.Contents? ==> Covered(s.accepted, s.disk.saved))
    && (!s.disk.Contents? ==> s.accepted == [])
  }

  lemma StepKeepsOrder(s: System, e: Event)
    requires OrderInv(s) && Enabled(s, e) && e != LoseFile
    ensures OrderInv(Step(s, e, true))
  {
    match e
    case Use(r) => RequestKeepsOrder(s.accepted, Stored(s.memory.value, s.disk), r);
    case Read(p, now, w) => ReadKeepsOrder(s.accepted, Stored(s.memory.value, s.disk), p, now, w);
    case _ =>
  }

  // Over any run in which the replay file is not lost, restarts and failed
  // writes included, accepted revisions never decrease, and two accepted
  // states of one revision are the same.
  lemma {:induction false} AcceptedNeverRollBack(s: System, events: seq<Event>)
    requires OrderInv(s) && Valid(s, events, true) && LoseFile !in events
    ensures OrderInv(Run(s, events, true)) && Ordered(Run(s, events, true).accepted)
    decreases |events|
  {
    if events != [] {
      StepKeepsOrder(s, events[0]);
      AcceptedNeverRollBack(Step(s, events[0], true), events[1..]);
    }
  }

  const NEWER_STATE := Publication(true, 100.0, 200.0, 7, DIGEST)
  const OLDER_STATE := Publication(true, 100.0, 200.0, 5, DIGEST)

  lemma OneStep(s: System, e: Event, rest: seq<Event>, next: System)
    requires Enabled(s, e) && Step(s, e, true) == next && Valid(next, rest, true)
    ensures Valid(s, [e] + rest, true) && Run(s, [e] + rest, true) == Run(next, rest, true)
  {
    hide Step, Enabled;
    assert ([e] + rest)[1..] == rest;
  }

  // The file that an operator initialises is accepted exactly when the clock
  // is less than 66 seconds before its origin and its seconds have no more
  // digits than the file may have characters.
  lemma InitialLoadsIff(now: real)
    ensures Loadable(Initial(now)) <==> now > -66.0 && JsonInt(Ceil(now) + QUIET_SECONDS) <= READ_LIMIT - 79
    ensures -66.0 < now <= LATEST as real ==> Loadable(Initial(now))
  {
    var s := Initial(now);
    assert SpentLength(s.spent) == 0 && JsonInt(s.revision) == 1;
    if -66.0 < now <= LATEST as real {
      JsonIntBound(s.notBefore);
    }
  }

  // What is remembered after a fresh start and one accepted state.
  function Seen(p: Publication): Saved {
    Initial(100.0).(revision := p.revision, digest := Some(p.digest))
  }

  // A stopped service and an empty or fresh file, then one accepted state.
  lemma FreshAccepts(s: System, p: Publication) returns (next: System)
    requires s.memory.None? && s.disk.Missing? && s.clock <= 100.0
    requires p.wellFormed && p.issuedAt == 100.0 && p.expiresAt == 200.0 && p.revision >= 1 && IsDigest(p.digest)
    ensures var events := [Bootstrap(100.0, true), Start, Read(p, 100.0, Written)];
            Valid(s, events, true) && Run(s, events, true) == next
    ensures next == System(Some(Seen(p)), Contents(Seen(p)), 100.0, s.log, s.accepted + [p])
  {
    InitialLoadsIff(100.0);
    var blank := Initial(100.0);
    var s1 := s.(clock := 100.0, disk := Contents(blank));
    var s2 := s1.(memory := Some(blank));
    next := System(Some(Seen(p)), Contents(Seen(p)), 100.0, s.log, s.accepted + [p]);
    assert Step(s, Bootstrap(100.0, true), true) == s1 && Step(s1, Start, true) == s2;
    assert Step(s2, Read(p, 100.0, Written), true) == next && Valid(next, [], true);
    hide Step, Initial, IsDigest;
    OneStep(s2, Read(p, 100.0, Written), [], next);
    assert [Read(p, 100.0, Written)] + [] == [Read(p, 100.0, Written)];
    OneStep(s1, Start, [Read(p, 100.0, Written)], s2);
    assert [Start] + [Read(p, 100.0, Written)] == [Start, Read(p, 100.0, Written)];
    OneStep(s, Bootstrap(100.0, true), [Start, Read(p, 100.0, Written)], s1);
    assert [Bootstrap(100.0, true)] + [Start, Read(p, 100.0, Written)] == [Bootstrap(100.0, true), Start, Read(p, 100.0, Written)];
  }

  lemma {:induction false} RunJoins(s: System, a: seq<Event>, b: seq<Event>)
    requires Valid(s, a, true) && Valid(Run(s, a, true), b, true)
    ensures Valid(s, a + b, true) && Run(s, a + b, true) == Run(Run(s, a, true), b, true)
    decreases |a|
  {
    if a == [] {
      assert a + b == b;
    } else {
      assert (a + b)[1..] == a[1..] + b;
      hide Step, Enabled;
      RunJoins(Step(s, a[0], true), a[1..], b);
    }
  }

  // When the file is lost and initialised anew, an older state is accepted
  // after a newer one.
  lemma LostFileRollsBack() returns (events: seq<Event>)
    ensures Valid(BEGIN, events, true) && !Ordered(Run(BEGIN, events, true).accepted)
  {
    var start := [Bootstrap(100.0, true), Start];
    var newer, older := start + [Read(NEWER_STATE, 100.0, Written)], start + [Read(OLDER_STATE, 100.0, Written)];
    var s3 := FreshAccepts(BEGIN, NEWER_STATE);
    var s4 := s3.(memory := None);
    var s5 := s4.(disk := Missing);
    assert Step(s3, Stop, true) == s4 && Step(s4, LoseFile, true) == s5 && Valid(s5, [], true);
    OneStep(s4, LoseFile, [], s5);
    assert [LoseFile] + [] == [LoseFile];
    OneStep(s3, Stop, [LoseFile], s4);
    assert [Stop] + [LoseFile] == [Stop, LoseFile];
    var s8 := FreshAccepts(s5, OLDER_STATE);
    assert s8.accepted == [NEWER_STATE, OLDER_STATE];
    hide Step, Enabled, Run, Valid, IsDigest;
    RunJoins(BEGIN, newer, [Stop, LoseFile]);
    RunJoins(BEGIN, newer + [Stop, LoseFile], older);
    events := newer + [Stop, LoseFile] + older;
    assert s8.accepted[0].revision > s8.accepted[1].revision;
  }

  const RESTART := [Start, Read(NEWER_STATE, 100.0, Written), Stop, Start, Read(OLDER_STATE, 100.0, Written)]

  lemma BlankAccepts(s: System, p: Publication)
    requires s.memory == Some(EMPTY) && s.clock <= 100.0
    requires p.wellFormed && p.issuedAt == 100.0 && p.expiresAt == 200.0 && p.revision >= 1 && IsDigest(p.digest)
    ensures Enabled(s, Read(p, 100.0, Written))
    ensures var next := Step(s, Read(p, 100.0, Written), false);
            next.accepted == s.accepted + [p] && next.clock == 100.0 && next.memory.Some?
  {
  }

  // Without a replay file a plain restart forgets the newer state.
  lemma RestartRollsBack()
    ensures Valid(BEGIN, RESTART, false) && LoseFile !in RESTART
    ensures !Ordered(Run(BEGIN, RESTART, false).accepted)
  {
    var newer, older := Read(NEWER_STATE, 100.0, Written), Read(OLDER_STATE, 100.0, Written);
    var s1 := Step(BEGIN, Start, false);
    BlankAccepts(s1, NEWER_STATE);
    var s2 := Step(s1, newer, false);
    var s3 := Step(s2, Stop, false);
    var s4 := Step(s3, Start, false);
    BlankAccepts(s4, OLDER_STATE);
    var s5 := Step(s4, older, false);
    assert s5.accepted == [NEWER_STATE, OLDER_STATE];
    hide Step, IsDigest;
    assert RESTART[1..] == [newer, Stop, Start, older];
    assert RESTART[1..][1..] == [Stop, Start, older];
    assert RESTART[1..][1..][1..] == [Start, older];
    assert RESTART[1..][1..][1..][1..] == [older];
    assert RESTART[1..][1..][1..][1..][1..] == [];
    assert Valid(s5, [], false) && Run(s5, [], false) == s5;
    assert Valid(s4, [older], false) && Run(s4, [older], false) == s5;
    assert Valid(s3, [Start, older], false) && Run(s3, [Start, older], false) == s5;
    assert Valid(s2, [Stop, Start, older], false) && Run(s2, [Stop, Start, older], false) == s5;
    assert Valid(s1, [newer, Stop, Start, older], false);
    assert s5.accepted[0].revision > s5.accepted[1].revision;
  }

  // Accepted revisions never decrease in any run, of a service with or without
  // a replay file, whose file may or may not be lost.
  ghost predicate NeverRollsBack(durable: bool, lossy: bool) {
    forall events :: Valid(BEGIN, events, durable) && (lossy || LoseFile !in events) ==>
      Ordered(Run(BEGIN, events, durable).accepted)
  }

  lemma NeverRollsBackIff(durable: bool, lossy: bool)
    ensures NeverRollsBack(durable, lossy) <==> durable && !lossy
  {
    forall events | Valid(BEGIN, events, true) && LoseFile !in events
      ensures Ordered(Run(BEGIN, events, true).accepted)
    {
      AcceptedNeverRollBack(BEGIN, events);
    }
    RestartRollsBack();
    var lost := LostFileRollsBack();
  }
}
