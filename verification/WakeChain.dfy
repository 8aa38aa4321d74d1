/** The per-target sliding window over wake attempts (session_peer_core/wake_chain.py). */
module WakeChain {
  import opened Text

  const HARD_MAX_DEPTH: int := 16
  const MAX_STAMP: int := 9007199254740991
  const WINDOW_MS: int := 60000

  datatype WakeError = RateExceeded | RateStateInvalid

  predicate Sorted(s: seq<int>) {
    forall i, j :: 0 <= i < j < |s| ==> s[i] <= s[j]
  }

  // What the reservation accepts as a stored list.
  predicate ValidStamps(s: seq<int>) {
    |s| <= HARD_MAX_DEPTH && (forall i :: 0 <= i < |s| ==> 0 <= s[i] <= MAX_STAMP) && Sorted(s)
  }

  function Recent(s: seq<int>, now: int): seq<int> {
    if s == [] then []
    else if s[0] > now - WINDOW_MS then [s[0]] + Recent(s[1..], now)
    else Recent(s[1..], now)
  }

  function Latest(s: seq<int>, now: int): int {
    if s == [] then now else if now >= s[|s| - 1] then now else s[|s| - 1]
  }

  // The stored list after a granted reservation, or why there is none.
  function Reserve(s: seq<int>, limit: int, now: int): Result<seq<int>, WakeError> {
    if limit == 0 then Err(RateExceeded)
    else if !ValidStamps(s) then Err(RateStateInvalid)
    else
      var kept := Recent(s, now);
      if |kept| >= limit then Err(RateExceeded) else Ok(kept + [Latest(kept, now)])
  }

  // The validity test on a list just read from the state file.
  method CheckStamps(s: seq<int>) returns (ok: bool)
    ensures ok <==> ValidStamps(s)
  {
    if |s| > HARD_MAX_DEPTH {
      return false;
    }
    for i := 0 to |s|
      invariant forall k :: 0 <= k < i ==> 0 <= s[k] <= MAX_STAMP
      invariant forall j, k :: 0 <= j < k < i ==> s[j] <= s[k]
    {
      if !(0 <= s[i] <= MAX_STAMP) || (i > 0 && s[i - 1] > s[i]) {
        return false;
      }
    }
    ok := true;
  }

  method Prune(s: seq<int>, now: int) returns (kept: seq<int>)
    ensures kept == Recent(s, now)
  {
    kept := [];
    for i := 0 to |s|
      invariant kept + Recent(s[i..], now) == Recent(s, now)
    {
      assert s[i..][1..] == s[i + 1..];
      if s[i] > now - WINDOW_MS {
        kept := kept + [s[i]];
      }
    }
  }

  class WakeTarget {
    var stamps: seq<int>

    constructor ()
      ensures stamps == []
    {
      stamps := [];
    }

    method ReserveAttempt(limit: int, now: int) returns (r: Result<int, WakeError>)
      requires 0 <= limit <= HARD_MAX_DEPTH
      modifies this
      ensures r.Ok? <==> Reserve(old(stamps), limit, now).Ok?
      ensures r.Ok? ==> stamps == Reserve(old(stamps), limit, now).value && r.value == stamps[|stamps| - 1]
      ensures r.Err? ==> stamps == old(stamps) && r.error == Reserve(old(stamps), limit, now).error
    {
      if limit == 0 {
        return Err(RateExceeded);
      }
      var ok := CheckStamps(stamps);
      if !ok {
        return Err(RateStateInvalid);
      }
      // A stamp ahead of the clock still counts.
      var kept := Prune(stamps, now);
      if |kept| >= limit {
        return Err(RateExceeded);
      }
      var stamp := if kept == [] then now else if now >= kept[|kept| - 1] then now else kept[|kept| - 1];
      stamps := kept + [stamp];
      r := Ok(stamp);
    }
  }

  /* ----- what a window of any length of calls guarantees ----- */

  // In a sorted list pruning drops a prefix: the first k stamps.
  lemma {:induction false} RecentIsSuffix(s: seq<int>, now: int) returns (k: nat)
    requires Sorted(s)
    ensures k <= |s| && Recent(s, now) == s[k..]
    ensures forall i :: 0 <= i < k ==> s[i] <= now - WINDOW_MS
    ensures forall i :: k <= i < |s| ==> s[i] > now - WINDOW_MS
  {
    if s == [] {
      k := 0;
    } else if s[0] > now - WINDOW_MS {
      k := 0;
      AllRecent(s, now);
    } else {
      var n := RecentIsSuffix(s[1..], now);
      k := n + 1;
      assert s[1..][n..] == s[k..];
      assert forall i :: 1 <= i < |s| ==> s[i] == s[1..][i - 1];
    }
  }

  lemma {:induction false} AllRecent(s: seq<int>, now: int)
    requires forall i :: 0 <= i < |s| ==> s[i] > now - WINDOW_MS
    ensures Recent(s, now) == s
  {
    if s != [] {
      AllRecent(s[1..], now);
    }
  }

  // A granted reservation in index form: the list keeps the stored stamps from
  // k on and ends with one that is not below the clock or any stored stamp.
  lemma ReserveShape(limit: int, stored: seq<int>, now: int) returns (k: nat, stamp: int)
    requires 1 <= limit <= HARD_MAX_DEPTH && Sorted(stored) && Reserve(stored, limit, now).Ok?
    ensures k <= |stored| && |stored| - k < limit
    ensures Reserve(stored, limit, now).value == stored[k..] + [stamp]
    ensures now <= stamp && (stored != [] ==> stored[|stored| - 1] <= stamp)
    ensures stamp == now || (stored != [] && stamp == stored[|stored| - 1])
    ensures forall i :: 0 <= i < k ==> stored[i] + WINDOW_MS <= stamp
    ensures forall i :: k <= i < |stored| ==> stored[i] > now - WINDOW_MS
  {
    k := RecentIsSuffix(stored, now);
    stamp := Latest(stored[k..], now);
  }

  // The stored list and all granted stamps after calls at the given times,
  // starting from a fresh target.
  function Run(limit: int, times: seq<int>): (seq<int>, seq<int>) {
    if times == [] then ([], [])
    else
      var (stored, granted) := Run(limit, times[..|times| - 1]);
      match Reserve(stored, limit, times[|times| - 1])
      case Err(_) => (stored, granted)
      case Ok(next) => (next, granted + [next[|next| - 1]])
  }

  // The stored list holds the latest grants; every grant it no longer holds
  // lies a full window before the last one.
  predicate Tail(limit: int, stored: seq<int>, granted: seq<int>) {
    && |stored| <= limit && |stored| <= |granted|
    && stored == granted[|granted| - |stored|..]
    && (granted != [] ==> stored != [])
    && (forall i :: 0 <= i < |granted| - |stored| ==> granted[i] + WINDOW_MS <= granted[|granted| - 1])
  }

  // Any grant and the one limit places later are a full window apart.
  predicate Spaced(limit: nat, granted: seq<int>) {
    forall i :: 0 <= i < |granted| - limit ==> granted[i] + WINDOW_MS <= granted[i + limit]
  }

  lemma GrantKeepsTail(limit: int, stored: seq<int>, granted: seq<int>, now: int)
    requires 1 <= limit <= HARD_MAX_DEPTH && Tail(limit, stored, granted) && Sorted(granted)
    requires Sorted(stored) && Reserve(stored, limit, now).Ok?
    ensures var next := Reserve(stored, limit, now).value;
            next != [] && Tail(limit, next, granted + [next[|next| - 1]]) && Sorted(granted + [next[|next| - 1]])
  {
    var k, stamp := ReserveShape(limit, stored, now);
    hide Reserve;
    var all, m := granted + [stamp], |granted| - |stored|;
    assert stored[k..] + [stamp] == all[m + k..];
    assert granted != [] ==> granted[|granted| - 1] == stored[|stored| - 1];
    forall i | 0 <= i < m + k ensures granted[i] + WINDOW_MS <= stamp {
      if i >= m { assert granted[i] == stored[i - m]; }
    }
  }

  lemma TailSpaces(limit: int, stored: seq<int>, granted: seq<int>)
    requires 1 <= limit && Tail(limit, stored, granted) && Sorted(granted) && granted != []
    requires Spaced(limit, granted[..|granted| - 1])
    ensures Spaced(limit, granted)
  {
    forall i | 0 <= i < |granted| - limit ensures granted[i] + WINDOW_MS <= granted[i + limit] {
      if i + limit < |granted| - 1 {
        assert granted[i] == granted[..|granted| - 1][i];
      }
    }
  }

  lemma LastCall(limit: int, times: seq<int>)
    requires times != []
    ensures var (stored, granted) := Run(limit, times[..|times| - 1]);
            var r := Reserve(stored, limit, times[|times| - 1]);
            Run(limit, times) == if r.Ok? then (r.value, granted + [r.value[|r.value| - 1]]) else (stored, granted)
  {
    hide Reserve;
  }

  lemma GrantKeepsSpaced(limit: int, stored: seq<int>, granted: seq<int>, now: int)
    requires 1 <= limit <= HARD_MAX_DEPTH && Tail(limit, stored, granted) && Sorted(granted)
    requires Spaced(limit, granted)
    requires Sorted(stored) && Reserve(stored, limit, now).Ok?
    ensures var next := Reserve(stored, limit, now).value;
            next != [] && Tail(limit, next, granted + [next[|next| - 1]]) && Sorted(next)
            && Sorted(granted + [next[|next| - 1]]) && Spaced(limit, granted + [next[|next| - 1]])
  {
    GrantKeepsTail(limit, stored, granted, now);
    var next := Reserve(stored, limit, now).value;
    hide Reserve;
    var all := granted + [next[|next| - 1]];
    assert all[..|all| - 1] == granted;
    TailSpaces(limit, next, all);
    TailSorted(limit, next, all);
  }

  lemma TailSorted(limit: int, stored: seq<int>, granted: seq<int>)
    requires Tail(limit, stored, granted) && Sorted(granted)
    ensures Sorted(stored)
  {
    assert forall i :: 0 <= i < |stored| ==> stored[i] == granted[|granted| - |stored| + i];
  }

  // For any clock, rollbacks included: granted stamps never decrease, and a
  // grant and the one limit places later are at least a minute apart. The
  // stored list stays sorted and at most limit long.
  lemma {:induction false} AnyWindowIsBounded(limit: int, times: seq<int>)
    requires 1 <= limit <= HARD_MAX_DEPTH
    ensures Tail(limit, Run(limit, times).0, Run(limit, times).1)
    ensures Sorted(Run(limit, times).1) && Spaced(limit, Run(limit, times).1)
    ensures Sorted(Run(limit, times).0) && |Run(limit, times).0| <= limit
  {
    if times != [] {
      var before := times[..|times| - 1];
      AnyWindowIsBounded(limit, before);
      LastCall(limit, times);
      var stored, granted := Run(limit, before).0, Run(limit, before).1;
      var now := times[|times| - 1];
      hide *;
      if Reserve(stored, limit, now).Ok? {
        GrantKeepsSpaced(limit, stored, granted, now);
      }
    }
  }

  // Fewer than limit + 1 wakes are granted in any minute, measured on stamps.
  lemma GrantsPerMinute(limit: int, times: seq<int>, i: nat, j: nat)
    requires 1 <= limit <= HARD_MAX_DEPTH
    requires i <= j < |Run(limit, times).1|
    ensures j - i >= limit ==> Run(limit, times).1[j] - Run(limit, times).1[i] >= WINDOW_MS
  {
    AnyWindowIsBounded(limit, times);
    hide Run, Tail;
  }

  // A refusal for rate is genuine: limit of the grants so far are less than a
  // minute older than the clock, or newer than it. Unless the clock has gone
  // back, such a window is always refused.
  lemma RefusedIffWindowFull(limit: int, times: seq<int>, now: int)
    requires 1 <= limit <= HARD_MAX_DEPTH
    ensures var (stored, granted) := Run(limit, times);
            var full := |granted| >= limit && granted[|granted| - limit] > now - WINDOW_MS;
            && (Reserve(stored, limit, now) == Err(RateExceeded) ==> full)
            && (ValidStamps(stored) && full && granted[|granted| - 1] <= now
                ==> Reserve(stored, limit, now) == Err(RateExceeded))
  {
    AnyWindowIsBounded(limit, times);
    var stored, granted := Run(limit, times).0, Run(limit, times).1;
    hide Run;
    var k := RecentIsSuffix(stored, now);
    hide Recent, Sorted, Spaced;
    assert |stored| == limit ==> stored[0] == granted[|granted| - limit];
    assert Reserve(stored, limit, now) == Err(RateExceeded) <==> ValidStamps(stored) && |stored| == limit && k == 0;
  }

  // Exactly which granted readings leave a readable list: none above the
  // largest stamp, and none below zero into an empty list.
  lemma GrantReadableIff(limit: int, stored: seq<int>, now: int)
    requires 1 <= limit <= HARD_MAX_DEPTH && ValidStamps(stored) && Reserve(stored, limit, now).Ok?
    ensures ValidStamps(Reserve(stored, limit, now).value) <==> now <= MAX_STAMP && (now >= 0 || stored != [])
  {
    var k, stamp := ReserveShape(limit, stored, now);
    var next := Reserve(stored, limit, now).value;
    hide Reserve;
    assert next[|next| - 1] == stamp;
    assert stored == [] ==> stamp == now;
    assert now < 0 && stored != [] ==> stamp == stored[|stored| - 1] by {
      if now < 0 && stored != [] { assert stored[|stored| - 1] >= 0 > now; }
    }
    assert forall i :: 0 <= i < |next| - 1 ==> next[i] == stored[k + i] <= stamp;
    assert Sorted(next);
  }

  // An unreadable list refuses every later call and is never repaired.
  lemma UnreadableStays(limit: int, stored: seq<int>, later: int)
    requires 1 <= limit && !ValidStamps(stored)
    ensures Reserve(stored, limit, later) == Err(RateStateInvalid)
  {
  }

  lemma FirstCall(limit: int, now: int)
    requires 1 <= limit
    ensures Reserve([], limit, now) == Ok([now])
  {
    assert Recent([], now) == [] && [] + [now] == [now];
  }

  // A first reading below zero is the only grant there will ever be.
  lemma {:induction false} NegativeStart(limit: int, times: seq<int>)
    requires 1 <= limit <= HARD_MAX_DEPTH && times != [] && times[0] < 0
    ensures Run(limit, times) == ([times[0]], [times[0]])
  {
    LastCall(limit, times);
    if |times| == 1 {
      FirstCall(limit, times[0]);
      assert times[..0] == [] && Run(limit, []) == ([], []);
    } else {
      NegativeStart(limit, times[..|times| - 1]);
      assert !ValidStamps([times[0]]) by { assert [times[0]][0] < 0; }
      UnreadableStays(limit, [times[0]], times[|times| - 1]);
      hide Run, Reserve;
    }
  }

  lemma TailReadable(limit: int, stored: seq<int>, granted: seq<int>)
    requires limit <= HARD_MAX_DEPTH && Tail(limit, stored, granted) && Sorted(granted) && Sorted(stored)
    requires granted != [] && granted[0] >= 0
    ensures ValidStamps(stored) <==> granted[|granted| - 1] <= MAX_STAMP
  {
    assert stored[|stored| - 1] == granted[|granted| - 1];
    forall i | 0 <= i < |stored| ensures 0 <= stored[i] <= granted[|granted| - 1] {
      assert stored[i] == granted[|granted| - |stored| + i];
    }
  }

  // Over any run the list is readable exactly when the first reading was not
  // below zero and the last granted stamp is not above the largest.
  lemma RunReadableIff(limit: int, times: seq<int>)
    requires 1 <= limit <= HARD_MAX_DEPTH && times != []
    ensures var (stored, granted) := Run(limit, times);
            granted != [] && (ValidStamps(stored) <==> times[0] >= 0 && granted[|granted| - 1] <= MAX_STAMP)
  {
    AnyWindowIsBounded(limit, times);
    FirstGrant(limit, times);
    hide Run, Tail, Spaced, Sorted;
    if times[0] < 0 {
      NegativeStart(limit, times);
      assert [times[0]][0] < 0;
    } else {
      TailReadable(limit, Run(limit, times).0, Run(limit, times).1);
    }
  }

  lemma {:induction false} FirstGrant(limit: int, times: seq<int>)
    requires 1 <= limit <= HARD_MAX_DEPTH && times != []
    ensures var granted := Run(limit, times).1; granted != [] && granted[0] == times[0]
  {
    LastCall(limit, times);
    if |times| == 1 {
      assert times[..0] == [] && Run(limit, []) == ([], []);
      FirstCall(limit, times[0]);
    } else {
      FirstGrant(limit, times[..|times| - 1]);
      assert times[..|times| - 1][0] == times[0];
      hide Run, Reserve;
    }
  }

  // So readings in range never make the list unreadable.
  lemma {:induction false} RunStaysReadable(limit: int, times: seq<int>)
    requires 1 <= limit <= HARD_MAX_DEPTH
    requires forall i :: 0 <= i < |times| ==> 0 <= times[i] <= MAX_STAMP
    ensures ValidStamps(Run(limit, times).0)
  {
    if times != [] {
      var before := times[..|times| - 1];
      RunStaysReadable(limit, before);
      LastCall(limit, times);
      hide Run, Reserve, ValidStamps;
      if Reserve(Run(limit, before).0, limit, times[|times| - 1]).Ok? {
        GrantReadableIff(limit, Run(limit, before).0, times[|times| - 1]);
      }
    }
  }
}
