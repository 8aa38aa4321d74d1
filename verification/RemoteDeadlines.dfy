/** Time budgets carried to another host without comparing clock origins (session_peer_core/handoff_remote.py). */
module RemoteDeadlines {
  import opened Text

  const CLEANUP_MS: int := 5000
  const MAX_SAFE_INTEGER: int := 9007199254740991

  datatype Anchor = Anchor(boot: string, monotonicMs: int)
  datatype Budget = Budget(cutoffMs: int, totalMs: int)
  datatype ClockError = ClockUnsupported | DeadlineBeforeEffect | InvalidRequest

  function Max(a: real, b: real): real { if a >= b then a else b }

  // Remaining milliseconds at one sample, rounded down; times are in seconds.
  function Remaining(deadline: real, now: real): (ms: int)
    ensures 0 <= ms
  {
    (Max(0.0, deadline - now) * 1000.0).Floor
  }

  // One sample serves both durations; the total is five seconds after the cutoff.
  function SenderBudget(cutoff: real, now: real): Budget {
    Budget(Remaining(cutoff, now), Remaining(cutoff + 5.0, now))
  }

  // The effect request is well formed only with exactly the cleanup margin.
  predicate RequestAccepted(b: Budget) {
    b.totalMs - b.cutoffMs == CLEANUP_MS
  }

  function RemoteAnchor(boot: Option<string>, ns: int): Result<Anchor, ClockError> {
    if boot.None? then Err(ClockUnsupported)
    else
      var ms := ns / 1000000;
      if 0 <= ms <= MAX_SAFE_INTEGER then Ok(Anchor(boot.value, ms)) else Err(ClockUnsupported)
  }

  // What the remote handler allows itself, in its own clock, for an anchor it
  // gave out earlier.
  function EffectDeadlines(given: Option<Anchor>, b: Budget, now: Result<Anchor, ClockError>): Result<(int, int), ClockError> {
    if now.Err? then Err(now.error)
    else if given.None? || given.value.boot != now.value.boot || given.value.monotonicMs > now.value.monotonicMs then Err(ClockUnsupported)
    else
      var cutoff, total := given.value.monotonicMs + b.cutoffMs, given.value.monotonicMs + b.totalMs;
      if total > MAX_SAFE_INTEGER || now.value.monotonicMs >= cutoff then Err(DeadlineBeforeEffect)
      else Ok((cutoff, total))
  }

  lemma FloorShift(x: real, n: int)
    ensures (x + n as real).Floor == x.Floor + n
  {
  }

  // In exact arithmetic the two floored durations keep the margin exactly
  // when the cutoff has not passed.
  lemma MarginIff(cutoff: real, now: real)
    ensures RequestAccepted(SenderBudget(cutoff, now)) <==> now <= cutoff
  {
    var b := SenderBudget(cutoff, now);
    if now <= cutoff {
      var x := (cutoff - now) * 1000.0;
      assert (cutoff + 5.0 - now) * 1000.0 == x + 5000.0;
      FloorShift(x, 5000);
    } else {
      assert b.cutoffMs == 0;
      assert Max(0.0, cutoff + 5.0 - now) * 1000.0 < 5000.0;
    }
  }

  // The remote clock ticks at the sender's rate, with an origin nobody knows:
  // at sender time t it shows t + offset seconds.
  function RemoteNs(t: real, offset: real): int {
    ((t + offset) * 1000000000.0).Floor
  }

  lemma NsToMs(ns: int, x: real)
    requires ns == (x * 1000000000.0).Floor
    ensures ns / 1000000 == (x * 1000.0).Floor
  {
    var y := x * 1000.0;
    var q := y.Floor;
    assert ns as real <= y * 1000000.0 < ns as real + 1.0;
    assert q as real <= y < q as real + 1.0;
    assert (q * 1000000) as real == q as real * 1000000.0;
    assert q * 1000000 <= ns by {
      assert (q * 1000000) as real <= y * 1000000.0 < (ns + 1) as real;
    }
    assert ns < (q + 1) * 1000000 by {
      assert ns as real <= y * 1000000.0 < (q as real + 1.0) * 1000000.0 == ((q + 1) * 1000000) as real;
    }
  }

  // An anchor taken before the sender's sample does not extend the budget: the
  // remote cutoff is no later than the sender's, and an accepted effect starts
  // strictly before the sender's cutoff in real time.
  lemma RemoteCutoffNeverLater(cutoff: real, offset: real, anchored: real, sampled: real, started: real, boot: string)
    requires anchored <= sampled && RequestAccepted(SenderBudget(cutoff, sampled))
    requires RemoteAnchor(Some(boot), RemoteNs(anchored, offset)).Ok?
    ensures var given := RemoteAnchor(Some(boot), RemoteNs(anchored, offset)).value;
            var result := EffectDeadlines(Some(given), SenderBudget(cutoff, sampled), RemoteAnchor(Some(boot), RemoteNs(started, offset)));
            result.Ok? ==>
              && result.value.0 as real <= (cutoff + offset) * 1000.0
              && result.value.1 == result.value.0 + CLEANUP_MS
              && started < cutoff
  {
    MarginIff(cutoff, sampled);
    NsToMs(RemoteNs(anchored, offset), anchored + offset);
    NsToMs(RemoteNs(started, offset), started + offset);
    var given := RemoteAnchor(Some(boot), RemoteNs(anchored, offset)).value;
    var b := SenderBudget(cutoff, sampled);
    var result := EffectDeadlines(Some(given), b, RemoteAnchor(Some(boot), RemoteNs(started, offset)));
    assert given.monotonicMs as real <= (anchored + offset) * 1000.0;
    assert b.cutoffMs as real <= (cutoff - sampled) * 1000.0;
    assert (given.monotonicMs + b.cutoffMs) as real <= (cutoff + offset) * 1000.0;
    if result.Ok? {
      var now := ((started + offset) * 1000.0).Floor;
      assert now < result.value.0;
      assert (started + offset) * 1000.0 < now as real + 1.0 <= result.value.0 as real;
    }
  }
}
