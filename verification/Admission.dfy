/** Single-use admission tickets and their replay file (session_peer_relay/auth.py). */
module Admission {
  import opened Text
  import opened Json

  const CAPACITY := 1000
  const TICKET_SECONDS := 60
  const SKEW_SECONDS := 5
  const STATE_SECONDS := 180.0
  const QUIET_SECONDS := 65
  const READ_LIMIT := 262144

  // The claims of a ticket that decide its use. Two tickets with the same
  // claims are the same ticket.
  datatype Ticket = Ticket(jti: string, iat: int, exp: int)

  // A published directory as read from its file. Well formed covers its size,
  // schema, issuer, audience and devices.
  datatype Publication = Publication(wellFormed: bool, issuedAt: real, expiresAt: real, revision: int, digest: string)

  // What the service remembers, in memory and in the replay file.
  datatype Saved = Saved(spent: map<string, int>, revision: int, digest: Option<string>, notBefore: int)

  datatype Disk = Missing | Corrupt | Contents(saved: Saved)

  // How a write of the replay file ends: done, failed after the new file was
  // put in place, or failed before.
  datatype Write = Written | LateFailure | EarlyFailure

  datatype Denial =
    | ReplayMissing | ReplayTooLarge | InvalidReplayState
    | InvalidAuthState | AuthStateRollback
    | InvalidTicket | InvalidClaims | DeviceRevoked | ReusedTicket | WriteFailed

  function Ceil(x: real): (n: int)
    ensures x <= n as real < x + 1.0
  {
    -(-x).Floor
  }

  /* ----- specification on values ----- */

  // The length of one remembered ticket in the text of the replay file.
  function EntryLength(jti: string, exp: int): nat {
    AsciiText(jti) + 2 + JsonInt(exp)
  }

  ghost function SpentLength(spent: map<string, int>): nat {
    if spent == map[] then 0
    else
      var k :| k in spent;
      EntryLength(k, spent[k]) + SpentLength(spent - {k})
  }

  lemma {:induction false} SpentRemove(spent: map<string, int>, x: string)
    requires x in spent
    ensures SpentLength(spent) == EntryLength(x, spent[x]) + SpentLength(spent - {x})
    decreases |spent|
  {
    var k :| k in spent && SpentLength(spent) == EntryLength(k, spent[k]) + SpentLength(spent - {k});
    if k != x {
      SpentRemove(spent - {k}, x);
      SpentRemove(spent - {x}, k);
      assert spent - {k} - {x} == spent - {x} - {k};
    }
  }

  // Everything around the entries: the names, the other three values and the
  // separators between the entries.
  function FrameLength(s: Saved): nat {
    74 + JsonInt(s.revision) + (if s.digest.Some? then AsciiText(s.digest.value) else 4) + JsonInt(s.notBefore)
    + (if |s.spent| > 1 then 2 * (|s.spent| - 1) else 0)
  }

  // The length of the replay file: its characters are all ASCII.
  ghost function FileLength(s: Saved): nat {
    FrameLength(s) + SpentLength(s.spent)
  }

  predicate InShape(s: Saved) {
    && 0 <= s.revision && 0 <= s.notBefore
    && (s.revision > 0 ==> s.digest.Some? && IsDigest(s.digest.value))
    && |s.spent| <= CAPACITY && forall k <- s.spent :: 16 <= |k| <= 128
  }

  // A file over the read limit is refused whatever it holds.
  ghost predicate Loadable(s: Saved) {
    InShape(s) && FileLength(s) <= READ_LIMIT
  }

  function Initial(now: real): Saved {
    Saved(map[], 0, None, Ceil(now) + QUIET_SECONDS)
  }

  const EMPTY := Saved(map[], 0, None, 0)

  // Memory and file after an attempt to persist what is to be remembered next.
  datatype Stored = Stored(memory: Saved, disk: Disk)

  function Persist(s: Stored, next: Saved, durable: bool, w: Write): Stored {
    if !durable then Stored(next, s.disk)
    else
      match w
      case Written => Stored(next, Contents(next))
      case LateFailure => Stored(s.memory, Contents(next))
      case EarlyFailure => s
  }

  predicate Persisted(durable: bool, w: Write) {
    !durable || w.Written?
  }

  function CheckPublication(p: Publication, memory: Saved, now: real): Option<Denial> {
    if !p.wellFormed || !(now < p.expiresAt <= p.issuedAt + STATE_SECONDS)
       || !(p.issuedAt <= now + SKEW_SECONDS as real) then Some(InvalidAuthState)
    else if p.revision < 1 || p.revision < memory.revision
            || (p.revision == memory.revision && Some(p.digest) != memory.digest) then Some(AuthStateRollback)
    else None
  }

  // Reading the published state: a newer revision is remembered first.
  function ReadState(s: Stored, p: Publication, durable: bool, now: real, w: Write): (Stored, Option<Denial>) {
    var denial := CheckPublication(p, s.memory, now);
    if denial.Some? then (s, denial)
    else if p.revision > s.memory.revision then
      (Persist(s, s.memory.(revision := p.revision, digest := Some(p.digest)), durable, w),
       if Persisted(durable, w) then None else Some(WriteFailed))
    else (s, None)
  }

  predicate ClaimsOk(t: Ticket, memory: Saved, now: real) {
    && now < t.exp as real && t.exp <= t.iat + TICKET_SECONDS
    && t.iat as real <= now + SKEW_SECONDS as real
    && memory.notBefore <= t.iat
    && 16 <= |t.jti| <= 128
  }

  function Live(spent: map<string, int>, now: real): map<string, int> {
    map k | k in spent && spent[k] as real > now :: spent[k]
  }

  // A request: the ticket, whether its signature, identity, role, room and
  // device proof hold, the published state at its two readings, whether the
  // second one has the device and its receiver active, three clock readings
  // and how each write ends.
  datatype Request = Request(
    ticket: Ticket, signed: bool, proven: bool, first: Publication, second: Publication, active: bool,
    times: (real, real, real), writes: (Write, Write, Write))

  function Authorize(s: Stored, r: Request, durable: bool): (Stored, Option<Denial>) {
    var (s1, d1) := ReadState(s, r.first, durable, r.times.0, r.writes.0);
    if d1.Some? then (s1, d1)
    else if !r.signed then (s1, Some(InvalidTicket))
    else if !ClaimsOk(r.ticket, s1.memory, r.times.1) || !r.proven then (s1, Some(InvalidClaims))
    else
      var (s2, d2) := ReadState(s1, r.second, durable, r.times.2, r.writes.1);
      if d2.Some? || !r.active then (s2, Some(DeviceRevoked))
      else
        var live := Live(s2.memory.spent, r.times.1);
        if r.ticket.jti in live || |live| >= CAPACITY then (s2, Some(ReusedTicket))
        else
          (Persist(s2, s2.memory.(spent := live[r.ticket.jti := r.ticket.exp]), durable, r.writes.2),
           if Persisted(durable, r.writes.2) then None else Some(WriteFailed))
  }

  /* ----- the program ----- */

  // How long the text of a replay file is.
  method TextLength(s: Saved) returns (n: nat)
    ensures n == FileLength(s)
  {
    n := FrameLength(s);
    var rest := s.spent;
    while rest != map[]
      invariant rest.Keys <= s.spent.Keys && n + SpentLength(rest) == FileLength(s)
      decreases |rest|
    {
      var k :| k in rest;
      SpentRemove(rest, k);
      n := n + EntryLength(k, rest[k]);
      rest := rest - {k};
    }
  }

  class ReplayFile {
    var content: Disk

    constructor ()
      ensures content == Missing
    {
      content := Missing;
    }

    // Explicit operator bootstrap; it never replaces a file.
    method Initialize(now: real, complete: bool) returns (ok: bool)
      modifies this
      ensures ok <==> old(content) == Missing && complete
      ensures content == if old(content) != Missing then old(content)
                         else if complete then Contents(Initial(now)) else Corrupt
    {
      if content != Missing {
        return false;
      }
      var notBefore := Ceil(now) + QUIET_SECONDS;
      if !complete {
        content := Corrupt;
        return false;
      }
      content := Contents(Saved(map[], 0, None, notBefore));
      ok := true;
    }
  }

  class ControlAdmission {
    const replayFile: ReplayFile?
    var used: map<string, int>
    var highestRevision: int
    var stateDigest: Option<string>
    var notBefore: int

    ghost function Memory(): Saved
      reads this
    {
      Saved(used, highestRevision, stateDigest, notBefore)
    }

    ghost function Now(): Stored
      reads this, replayFile
    {
      Stored(Memory(), if replayFile == null then Missing else replayFile.content)
    }

    ghost predicate Durable() {
      replayFile != null
    }

    constructor (file: ReplayFile?)
      ensures replayFile == file && Memory() == EMPTY
    {
      replayFile := file;
      used, highestRevision, stateDigest, notBefore := map[], 0, None, 0;
    }

    method LoadReplay() returns (denial: Option<Denial>)
      modifies this
      ensures denial == if !Durable() then None
                        else if replayFile.content.Missing? then Some(ReplayMissing)
                        else if replayFile.content.Corrupt? then Some(InvalidReplayState)
                        else if FileLength(replayFile.content.saved) > READ_LIMIT then Some(ReplayTooLarge)
                        else if !InShape(replayFile.content.saved) then Some(InvalidReplayState)
                        else None
      ensures denial.None? ==> Memory() == if Durable() then replayFile.content.saved else EMPTY
    {
      if replayFile == null {
        used, highestRevision, stateDigest, notBefore := map[], 0, None, 0;
        return None;
      }
      if replayFile.content.Missing? {
        return Some(ReplayMissing);
      }
      if replayFile.content.Corrupt? {
        return Some(InvalidReplayState);
      }
      var saved := replayFile.content.saved;
      var length := TextLength(saved);
      if length > READ_LIMIT {
        return Some(ReplayTooLarge);
      }
      if saved.revision < 0 {
        return Some(InvalidReplayState);
      }
      used := saved.spent;
      notBefore := saved.notBefore;
      if notBefore < 0 {
        return Some(InvalidReplayState);
      }
      highestRevision, stateDigest := saved.revision, saved.digest;
      if highestRevision != 0 && (stateDigest.None? || !IsDigest(stateDigest.value)) {
        return Some(InvalidReplayState);
      }
      if |used| > CAPACITY || exists k <- used :: !(16 <= |k| <= 128) {
        return Some(InvalidReplayState);
      }
      denial := None;
    }

    method PersistState(newUsed: map<string, int>, revision: int, digest: Option<string>, w: Write) returns (ok: bool)
      modifies this, replayFile
      ensures ok <==> Persisted(Durable(), w)
      ensures Now() == Persist(old(Now()), Saved(newUsed, revision, digest, old(notBefore)), Durable(), w)
    {
      if replayFile != null {
        if w.EarlyFailure? {
          return false;
        }
        replayFile.content := Contents(Saved(newUsed, revision, digest, notBefore));
        if w.LateFailure? {
          return false;
        }
      }
      used, highestRevision, stateDigest := newUsed, revision, digest;
      ok := true;
    }

    method State(p: Publication, now: real, w: Write) returns (denial: Option<Denial>)
      modifies this, replayFile
      ensures (Now(), denial) == ReadState(old(Now()), p, Durable(), now, w)
    {
      if !p.wellFormed || !(now < p.expiresAt <= p.issuedAt + STATE_SECONDS)
         || !(p.issuedAt <= now + SKEW_SECONDS as real) {
        return Some(InvalidAuthState);
      }
      if p.revision < 1 || p.revision < highestRevision
         || (p.revision == highestRevision && Some(p.digest) != stateDigest) {
        return Some(AuthStateRollback);
      }
      if p.revision > highestRevision {
        var ok := PersistState(used, p.revision, Some(p.digest), w);
        if !ok {
          return Some(WriteFailed);
        }
      }
      denial := None;
    }

    method AuthorizeTicket(r: Request) returns (denial: Option<Denial>)
      modifies this, replayFile
      ensures (Now(), denial) == Authorize(old(Now()), r, Durable())
    {
      var first := State(r.first, r.times.0, r.writes.0);
      if first.Some? {
        return first;
      }
      if !r.signed {
        return Some(InvalidTicket);
      }
      var t, now := r.ticket, r.times.1;
      if !(now < t.exp as real) || t.exp > t.iat + TICKET_SECONDS || t.iat as real > now + SKEW_SECONDS as real
         || t.iat < notBefore || !(16 <= |t.jti| <= 128) || !r.proven {
        return Some(InvalidClaims);
      }
      var second := State(r.second, r.times.2, r.writes.1);
      if second.Some? || !r.active {
        return Some(DeviceRevoked);
      }
      var live := map k | k in used && used[k] as real > now :: used[k];
      if t.jti in live || |live| >= CAPACITY {
        return Some(ReusedTicket);
      }
      live := live[t.jti := t.exp];
      // Remembered first: a failure from here on still uses the ticket up.
      var ok := PersistState(live, highestRevision, stateDigest, r.writes.2);
      if !ok {
        return Some(WriteFailed);
      }
      denial := None;
    }
  }
}
