/** Selection of one Codex home from lock evidence (session_peer_core/codex.py). */
module CodexHome {
  import opened Text

  datatype WriterLock = NotChecked | Absent | Free | Held | UnknownLock
  datatype Activity = Inactive | LiveWriter | UnknownActivity
  datatype Status = Explicit | Selected | Unresolved | Ambiguous
  datatype Reason =
    | InactiveOptInRequiresExplicitHome
    | StorageRefused
    | HomeInventoryUnreadable
    | ThreadNotYetPersisted
    | ThreadNotSavedInKnownHomes
    | ActiveWriterUnverified
    | MultipleLiveWriters
    | ExplicitHomeConflictsWithLiveWriter
    | ExplicitLiveWriter
    | SingleStableLiveWriter
    | ThreadNotSavedInExplicitHome
    | ExplicitInactiveWake
    | ExplicitInactiveOptIn
    | InactiveQueueRequiresOptIn

  // What one inspection of a thread's writer lock reports.
  datatype Writer = Writer(activity: Activity, lock: WriterLock, ownerPid: Option<nat>, ownerStart: Option<string>)

  datatype Candidate = Candidate(
    codexHome: string,
    savedThread: Option<bool>,
    writer: Option<Writer>)

  datatype Resolution = Resolution(status: Status, selected: Option<string>, reason: Reason, candidates: seq<Candidate>)

  datatype Request = Request(explicit: bool, inactiveOptIn: bool, wake: bool, selected: string)

  // Results of the storage check, the database test and the saved-thread query.
  datatype HomeFacts = HomeFacts(storageOk: bool, dbIsFile: bool, saved: Option<bool>)

  /* ----- lock evidence of one home ----- */

  datatype Opener = Opener(pid: nat, uid: Option<int>, command: string, startTime: Option<string>)
  datatype Sample = Sample(snapshot: Option<seq<int>>, lock: WriterLock, openers: seq<Opener>, openerFailed: bool)

  function LowerChar(c: char): char {
    if 'A' <= c <= 'Z' then c - 'A' + 'a' else c
  }

  function Lower(s: string): (r: string)
    ensures |r| == |s|
    ensures forall i :: 0 <= i < |s| ==> r[i] == LowerChar(s[i])
  {
    seq(|s|, i requires 0 <= i < |s| => LowerChar(s[i]))
  }

  predicate IsCodexCommand(command: string, windows: bool) {
    var lowered := Lower(command);
    var name := if windows && |lowered| >= 4 && lowered[|lowered| - 4..] == ".exe" then lowered[..|lowered| - 4] else lowered;
    name == "codex" || "codex-" <= name
  }

  function InspectWriter(before: Sample, after: Sample, user: Option<int>, windows: bool): Writer {
    if before.lock != Held then
      Writer(if before.lock == Absent || before.lock == Free then Inactive else UnknownActivity, before.lock, None, None)
    else
      var unknown := Writer(UnknownActivity, after.lock, None, None);
      if before.snapshot != after.snapshot then unknown
      else if after.lock != Held then unknown
      else if before.openerFailed || after.openerFailed then unknown
      else if |before.openers| != 1 || |after.openers| != 1 then unknown
      else if before.openers[0] != after.openers[0] then unknown
      else if before.openers[0].startTime.None? then unknown
      else if user.None? || before.openers[0].uid != user then unknown
      else if !IsCodexCommand(before.openers[0].command, windows) then unknown
      else Writer(LiveWriter, Held, Some(before.openers[0].pid), before.openers[0].startTime)
  }

  // A live writer is one stable Codex process of the current user that held an
  // unchanged lock in both samples; a missed or changed fact is never "inactive".
  lemma LiveWriterEvidence(before: Sample, after: Sample, user: Option<int>, windows: bool)
    ensures var w := InspectWriter(before, after, user, windows);
            && (w.activity == LiveWriter <==>
                  && before.lock == after.lock == Held && before.snapshot == after.snapshot
                  && !before.openerFailed && !after.openerFailed
                  && |before.openers| == 1 && before.openers == after.openers
                  && before.openers[0].startTime.Some?
                  && user.Some? && before.openers[0].uid == user
                  && IsCodexCommand(before.openers[0].command, windows))
            && (w.activity == LiveWriter ==>
                  w.lock == Held && w.ownerPid == Some(before.openers[0].pid) && w.ownerStart == before.openers[0].startTime)
            && (w.activity == Inactive <==> before.lock == Absent || before.lock == Free)
  {
    if |before.openers| == 1 && |after.openers| == 1 && before.openers[0] == after.openers[0] {
      assert before.openers == after.openers;
    }
  }

  /* ----- choice among the known homes ----- */

  predicate Saved(facts: map<string, HomeFacts>, home: string) {
    home in facts && facts[home].dbIsFile && facts[home].saved == Some(true)
  }

  // Every home could be inventoried: storage checked, database readable (only
  // the requested home may lack one).
  predicate Inventoried(request: Request, homes: seq<string>, facts: map<string, HomeFacts>) {
    forall h :: h in homes ==>
      && h in facts && facts[h].storageOk
      && (if facts[h].dbIsFile then facts[h].saved.Some? else h == request.selected)
  }

  // home is the only saved home with a writer, and the others are proven idle.
  predicate UniqueLiveWriter(saved: set<string>, writers: map<string, Writer>, home: string) {
    && home in saved && home in writers && writers[home].activity == LiveWriter
    && forall h :: h in saved && h != home ==> h in writers && writers[h].activity == Inactive
  }

  predicate AllInactive(saved: set<string>, writers: map<string, Writer>) {
    forall h :: h in saved ==> h in writers && writers[h].activity == Inactive
  }

  function SavedHomes(homes: seq<string>, facts: map<string, HomeFacts>): set<string> {
    set h | h in homes && Saved(facts, h)
  }

  // When a home may be chosen, stated without reference to the search order.
  predicate Selectable(request: Request, homes: seq<string>, facts: map<string, HomeFacts>,
                       writers: map<string, Writer>, home: string)
  {
    var saved := SavedHomes(homes, facts);
    && (request.inactiveOptIn ==> request.explicit)
    && Inventoried(request, homes, facts)
    && (request.explicit ==> home == request.selected)
    && home in saved
    && (|| UniqueLiveWriter(saved, writers, home)
        || (request.explicit && (request.inactiveOptIn || request.wake) && AllInactive(saved, writers)))
  }

  // At most one home is ever selectable.
  lemma SelectableUnique(request: Request, homes: seq<string>, facts: map<string, HomeFacts>,
                         writers: map<string, Writer>, h1: string, h2: string)
    requires Selectable(request, homes, facts, writers, h1) && Selectable(request, homes, facts, writers, h2)
    ensures h1 == h2
  {
  }

  predicate Describes(c: Candidate, facts: map<string, HomeFacts>, writers: map<string, Writer>) {
    && c.codexHome in facts
    && c.savedThread == (if facts[c.codexHome].dbIsFile then facts[c.codexHome].saved else Some(false))
    && (c.savedThread == Some(true) ==>
          c.codexHome in writers && c.writer == Some(writers[c.codexHome]))
  }

  function SavedFact(facts: HomeFacts): Option<bool> {
    if facts.dbIsFile then facts.saved else Some(false)
  }

  // The storage and saved-thread pass: candidates so far, or the refusal.
  method InventoryHomes(request: Request, homes: seq<string>, facts: map<string, HomeFacts>)
    returns (r: Result<seq<Candidate>, Resolution>)
    requires forall h :: h in homes ==> h in facts
    ensures r.Ok? <==> Inventoried(request, homes, facts)
    ensures r.Ok? ==> r.value == seq(|homes|, i requires 0 <= i < |homes| => Candidate(homes[i], SavedFact(facts[homes[i]]), None))
    ensures r.Err? ==> r.error.selected == None
  {
    var candidates := seq(|homes|, i requires 0 <= i < |homes| => Candidate(homes[i], None, None));
    for i := 0 to |homes|
      invariant |candidates| == |homes|
      invariant forall k :: i <= k < |homes| ==> candidates[k] == Candidate(homes[k], None, None)
      invariant forall k :: 0 <= k < i ==> candidates[k] == Candidate(homes[k], SavedFact(facts[homes[k]]), None)
      invariant Inventoried(request, homes[..i], facts)
    {
      var home := homes[i];
      assert homes[..i + 1] == homes[..i] + [home];
      if !facts[home].storageOk {
        return Err(Resolution(Unresolved, None, StorageRefused, candidates));
      }
      candidates := candidates[i := candidates[i].(savedThread := SavedFact(facts[home]))];
      if (!facts[home].dbIsFile && home != request.selected) || (facts[home].dbIsFile && facts[home].saved.None?) {
        return Err(Resolution(Unresolved, None, HomeInventoryUnreadable, candidates));
      }
    }
    assert homes[..|homes|] == homes;
    r := Ok(candidates);
  }

  // The lock inspection of every saved home.
  method InspectSavedHomes(homes: seq<string>, before: seq<Candidate>, writers: map<string, Writer>)
    returns (candidates: seq<Candidate>, matches: seq<string>, live: seq<string>, unknown: bool)
    requires |before| == |homes|
    requires forall k :: 0 <= k < |homes| ==> before[k].codexHome == homes[k] && homes[k] in writers
    requires forall i, j :: 0 <= i < j < |homes| ==> homes[i] != homes[j]
    ensures |candidates| == |homes|
    ensures forall k :: 0 <= k < |homes| ==>
      candidates[k] == if before[k].savedThread == Some(true) then before[k].(writer := Some(writers[homes[k]])) else before[k]
    ensures forall h :: h in matches <==> exists k :: 0 <= k < |homes| && homes[k] == h && before[k].savedThread == Some(true)
    ensures forall h :: h in live <==> h in matches && h in writers && writers[h].activity == LiveWriter
    ensures forall m, n :: 0 <= m < n < |live| ==> live[m] != live[n]
    ensures unknown <==> exists h :: h in matches && h in writers && writers[h].activity == UnknownActivity
  {
    candidates, matches, live, unknown := before, [], [], false;
    for i := 0 to |homes|
      invariant |candidates| == |homes|
      invariant forall k :: i <= k < |homes| ==> candidates[k] == before[k]
      invariant forall k :: 0 <= k < i ==>
        candidates[k] == if before[k].savedThread == Some(true) then before[k].(writer := Some(writers[homes[k]])) else before[k]
      invariant forall h :: h in matches <==> exists k :: 0 <= k < i && homes[k] == h && before[k].savedThread == Some(true)
      invariant forall h :: h in live <==> h in matches && h in writers && writers[h].activity == LiveWriter
      invariant forall m, n :: 0 <= m < n < |live| ==> live[m] != live[n]
      invariant unknown <==> exists h :: h in matches && h in writers && writers[h].activity == UnknownActivity
    {
      if candidates[i].savedThread == Some(true) {
        var writer := writers[homes[i]];
        candidates := candidates[i := candidates[i].(writer := Some(writer))];
        matches := matches + [homes[i]];
        if writer.activity == LiveWriter {
          live := live + [homes[i]];
        } else if writer.activity == UnknownActivity {
          unknown := true;
        }
      }
    }
  }

  // No home has the thread on record. A single live lock only picks the message.
  method UnsavedRefusal(request: Request, homes: seq<string>, before: seq<Candidate>, writers: map<string, Writer>)
    returns (r: Resolution)
    requires |before| == |homes|
    requires forall h :: h in homes ==> h in writers
    ensures r.selected == None
    ensures r.reason == ThreadNotYetPersisted ==>
      exists h :: h in homes && writers[h].activity == LiveWriter && (request.explicit ==> h == request.selected)
  {
    var candidates, live := before, [];
    for i := 0 to |homes|
      invariant |candidates| == |homes|
      invariant forall h :: h in live ==> h in homes && writers[h].activity == LiveWriter
    {
      candidates := candidates[i := candidates[i].(writer := Some(writers[homes[i]]))];
      if writers[homes[i]].activity == LiveWriter {
        live := live + [homes[i]];
      }
    }
    if |live| == 1 && (!request.explicit || live[0] == request.selected) {
      assert live[0] in homes;
      return Resolution(Unresolved, None, ThreadNotYetPersisted, candidates);
    }
    r := Resolution(Unresolved, None, ThreadNotSavedInKnownHomes, candidates);
  }

  method ResolveCodexHome(request: Request, homes: seq<string>, facts: map<string, HomeFacts>, writers: map<string, Writer>)
    returns (r: Result<(string, Resolution), Resolution>)
    requires forall i, j :: 0 <= i < j < |homes| ==> homes[i] != homes[j]
    requires request.selected in homes
    requires forall h :: h in homes ==> h in facts && h in writers
    ensures r.Ok? ==> Selectable(request, homes, facts, writers, r.value.0)
    ensures r.Err? ==> forall h :: !Selectable(request, homes, facts, writers, h)
    ensures r.Ok? ==>
      && r.value.1.selected == Some(r.value.0)
      && |r.value.1.candidates| == |homes|
      && (forall i :: 0 <= i < |homes| ==>
            r.value.1.candidates[i].codexHome == homes[i] && Describes(r.value.1.candidates[i], facts, writers))
      && r.value.1.status == (if request.explicit then Explicit else Selected)
    ensures r.Ok? && LiveSelection(r.value.1.reason) ==> UniqueLiveWriter(SavedHomes(homes, facts), writers, r.value.0)
    ensures r.Ok? && !LiveSelection(r.value.1.reason) ==>
      InactiveSelection(r.value.1.reason) && AllInactive(SavedHomes(homes, facts), writers)
    ensures r.Err? ==> r.error.selected == None
  {
    if request.inactiveOptIn && !request.explicit {
      return Err(Resolution(Unresolved, None, InactiveOptInRequiresExplicitHome, []));
    }
    var inventory := InventoryHomes(request, homes, facts);
    if inventory.Err? {
      return Err(inventory.error);
    }
    var candidates, matches, live, unknown := InspectSavedHomes(homes, inventory.value, writers);
    ghost var saved := SavedHomes(homes, facts);
    assert forall h :: h in matches <==> h in saved by {
      forall k | 0 <= k < |homes| ensures homes[k] in homes { }
    }
    if matches == [] {
      var refusal := UnsavedRefusal(request, homes, candidates, writers);
      return Err(refusal);
    }
    if unknown {
      return Err(Resolution(Unresolved, None, ActiveWriterUnverified, candidates));
    }
    if |live| > 1 {
      assert live[0] in live && live[1] in live;
      return Err(Resolution(Ambiguous, None, MultipleLiveWriters, candidates));
    }
    if |live| == 1 {
      var active := live[0];
      assert active in live;
      assert UniqueLiveWriter(saved, writers, active);
      if request.explicit && active != request.selected {
        return Err(Resolution(Ambiguous, None, ExplicitHomeConflictsWithLiveWriter, candidates));
      }
      var status := if request.explicit then Explicit else Selected;
      var reason := if request.explicit then ExplicitLiveWriter else SingleStableLiveWriter;
      return Ok((active, Resolution(status, Some(active), reason, candidates)));
    }
    assert AllInactive(saved, writers);
    if request.explicit && request.selected !in matches {
      return Err(Resolution(Unresolved, None, ThreadNotSavedInExplicitHome, candidates));
    }
    if request.explicit && (request.inactiveOptIn || request.wake) {
      var reason := if request.wake then ExplicitInactiveWake else ExplicitInactiveOptIn;
      return Ok((request.selected, Resolution(Explicit, Some(request.selected), reason, candidates)));
    }
    r := Err(Resolution(Ambiguous, None, InactiveQueueRequiresOptIn, candidates));
  }

  /* ----- re-checking a selection just before the queue command ----- */

  predicate LiveSelection(reason: Reason) {
    reason == SingleStableLiveWriter || reason == ExplicitLiveWriter
  }

  predicate InactiveSelection(reason: Reason) {
    reason == ExplicitInactiveOptIn || reason == ExplicitInactiveWake
  }

  function SavedIn(candidates: seq<Candidate>): set<string> {
    set c | c in candidates && c.savedThread == Some(true) :: c.codexHome
  }

  // A resolution for root as the selector produces it.
  predicate SelectionOf(root: string, resolution: Resolution) {
    && (exists c :: c in resolution.candidates && c.codexHome == root && c.savedThread == Some(true) && c.writer.Some?)
    && forall i, j :: 0 <= i < j < |resolution.candidates| ==>
         resolution.candidates[i].codexHome != resolution.candidates[j].codexHome
  }

  // Whether the new lock evidence still supports the selection of root.
  predicate StillSupported(root: string, resolution: Resolution, observed: map<string, Writer>) {
    var saved := SavedIn(resolution.candidates);
    if LiveSelection(resolution.reason) then
      && UniqueLiveWriter(saved, observed, root)
      && observed[root].lock == Held
      && exists c :: c in resolution.candidates && c.codexHome == root && c.writer.Some?
           && c.writer.value.ownerPid == observed[root].ownerPid && c.writer.value.ownerStart == observed[root].ownerStart
    else
      AllInactive(saved, observed)
  }

  method RevalidateCodexHome(root: string, resolution: Resolution, observed: map<string, Writer>) returns (accepted: bool)
    requires SelectionOf(root, resolution)
    requires forall c :: c in resolution.candidates ==> c.codexHome in observed
    ensures LiveSelection(resolution.reason) || InactiveSelection(resolution.reason) ==>
      (accepted <==> StillSupported(root, resolution, observed))
  {
    var live := LiveSelection(resolution.reason);
    if !live && !InactiveSelection(resolution.reason) {
      return true;
    }
    ghost var saved := SavedIn(resolution.candidates);
    var previous: Option<Writer> := None;
    var selected: Option<Writer> := None;
    var competitorsIdle := true;
    for i := 0 to |resolution.candidates|
      invariant previous.None? <==> forall k :: 0 <= k < i ==> resolution.candidates[k].codexHome != root
      invariant selected.None? <==> previous.None?
      invariant previous.Some? ==> selected == Some(observed[root])
      invariant previous.Some? ==>
        exists k :: 0 <= k < i && resolution.candidates[k].codexHome == root && resolution.candidates[k].writer == previous
      invariant competitorsIdle <==> forall k :: 0 <= k < i ==>
        resolution.candidates[k].savedThread == Some(true) && resolution.candidates[k].codexHome != root ==>
          observed[resolution.candidates[k].codexHome].activity == Inactive
    {
      var c := resolution.candidates[i];
      var current := if c.savedThread == Some(true) then Some(observed[c.codexHome]) else c.writer;
      if c.codexHome == root {
        previous, selected := c.writer, current;
      } else if c.savedThread == Some(true) && observed[c.codexHome].activity != Inactive {
        competitorsIdle := false;
      }
    }
    assert competitorsIdle <==> forall h :: h in saved && h != root ==> observed[h].activity == Inactive;
    var now, was := selected.value, previous.value;
    accepted := if live
      then (now.activity, now.lock, now.ownerPid, now.ownerStart) == (LiveWriter, Held, was.ownerPid, was.ownerStart) && competitorsIdle
      else now.activity == Inactive && competitorsIdle;
  }

  // What ResolveCodexHome promises about the resolution it returns.
  predicate Resolved(request: Request, homes: seq<string>, facts: map<string, HomeFacts>, writers: map<string, Writer>,
                     root: string, resolution: Resolution)
  {
    && Selectable(request, homes, facts, writers, root)
    && |resolution.candidates| == |homes|
    && (forall i :: 0 <= i < |homes| ==>
          resolution.candidates[i].codexHome == homes[i] && Describes(resolution.candidates[i], facts, writers))
    && (LiveSelection(resolution.reason) || InactiveSelection(resolution.reason))
    && (LiveSelection(resolution.reason) ==> UniqueLiveWriter(SavedHomes(homes, facts), writers, root))
    && (InactiveSelection(resolution.reason) ==> AllInactive(SavedHomes(homes, facts), writers))
  }

  // A resolution of the selector may be re-checked, and the re-check accepts
  // exactly when the new evidence alone would select the same home again, with
  // the same owner process when there was one.
  lemma RevalidationReselects(request: Request, homes: seq<string>, facts: map<string, HomeFacts>, writers: map<string, Writer>,
                              root: string, resolution: Resolution, observed: map<string, Writer>)
    requires Resolved(request, homes, facts, writers, root, resolution)
    requires forall i, j :: 0 <= i < j < |homes| ==> homes[i] != homes[j]
    requires forall h :: h in homes ==> h in observed && (observed[h].activity == LiveWriter ==> observed[h].lock == Held)
    ensures SelectionOf(root, resolution)
    ensures SavedIn(resolution.candidates) == SavedHomes(homes, facts)
    ensures StillSupported(root, resolution, observed) <==>
      && Selectable(request, homes, facts, observed, root)
      && (observed[root].activity == LiveWriter <==> writers[root].activity == LiveWriter)
      && (observed[root].activity == LiveWriter ==>
            observed[root].ownerPid == writers[root].ownerPid && observed[root].ownerStart == writers[root].ownerStart)
  {
    var saved := SavedHomes(homes, facts);
    var n :| 0 <= n < |homes| && homes[n] == root;
    assert resolution.candidates[n] in resolution.candidates;
    forall h ensures h in SavedIn(resolution.candidates) <==> h in saved {
      if h in saved {
        var k :| 0 <= k < |homes| && homes[k] == h;
        assert resolution.candidates[k] in resolution.candidates;
      }
    }
    assert resolution.candidates[n].writer == Some(writers[root]);
    forall c | c in resolution.candidates && c.codexHome == root ensures c == resolution.candidates[n] {
      var k :| 0 <= k < |homes| && resolution.candidates[k] == c;
      assert homes[k] == root;
    }
  }

  // The two samples of one inspection.
  datatype Inspection = Inspection(before: Sample, after: Sample)

  predicate Inspected(writers: map<string, Writer>, inspections: map<string, Inspection>, homes: seq<string>, user: Option<int>, windows: bool) {
    forall h :: h in homes ==>
      h in inspections && h in writers
      && writers[h] == InspectWriter(inspections[h].before, inspections[h].after, user, windows)
  }

  // Both samples show the lock held by one process, the same in both: a Codex
  // process of this user with the given PID and start time.
  predicate HeldBy(i: Inspection, user: Option<int>, windows: bool, pid: nat, start: string) {
    && i.before.lock == i.after.lock == Held
    && |i.before.openers| == 1 && i.before.openers == i.after.openers
    && user.Some? && i.before.openers[0].uid == user
    && i.before.openers[0].pid == pid && i.before.openers[0].startTime == Some(start)
    && IsCodexCommand(i.before.openers[0].command, windows)
  }

  // When a live selection is re-checked and accepted, one and the same Codex
  // process of this user held the lock of the home in all four samples, and no
  // other saved home had its lock held at either inspection.
  lemma AcceptedOwnerIsOneProcess(request: Request, homes: seq<string>, facts: map<string, HomeFacts>,
      first: map<string, Inspection>, writers: map<string, Writer>, again: map<string, Inspection>, observed: map<string, Writer>,
      user: Option<int>, windows: bool, root: string, resolution: Resolution) returns (pid: nat, start: string)
    requires Resolved(request, homes, facts, writers, root, resolution) && LiveSelection(resolution.reason)
    requires forall i, j :: 0 <= i < j < |homes| ==> homes[i] != homes[j]
    requires Inspected(writers, first, homes, user, windows) && Inspected(observed, again, homes, user, windows)
    requires StillSupported(root, resolution, observed)
    ensures root in homes && HeldBy(first[root], user, windows, pid, start) && HeldBy(again[root], user, windows, pid, start)
    ensures forall h :: h in SavedHomes(homes, facts) && h != root ==>
      h in homes && first[h].before.lock in {Absent, Free} && again[h].before.lock in {Absent, Free}
  {
    hide InspectWriter, IsCodexCommand;
    forall h | h in homes ensures observed[h].activity == LiveWriter ==> observed[h].lock == Held {
      LiveWriterEvidence(again[h].before, again[h].after, user, windows);
    }
    RevalidationReselects(request, homes, facts, writers, root, resolution, observed);
    LiveWriterEvidence(first[root].before, first[root].after, user, windows);
    LiveWriterEvidence(again[root].before, again[root].after, user, windows);
    pid, start := writers[root].ownerPid.value, writers[root].ownerStart.value;
    forall h | h in SavedHomes(homes, facts) && h != root
      ensures h in homes && first[h].before.lock in {Absent, Free} && again[h].before.lock in {Absent, Free}
    {
      LiveWriterEvidence(first[h].before, first[h].after, user, windows);
      LiveWriterEvidence(again[h].before, again[h].after, user, windows);
    }
  }
}
