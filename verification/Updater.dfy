/** The remote updater's publisher: lock, version test, backup, replace, verify
    and roll back (session_peer_core/ssh.py). */
module Updater {
  import opened Text

  // A parsed release, compared part by part.
  datatype Version = Version(major: nat, minor: nat, patch: nat, stage: nat, serial: nat)

  predicate Older(a: Version, b: Version) {
    if a.major != b.major then a.major < b.major
    else if a.minor != b.minor then a.minor < b.minor
    else if a.patch != b.patch then a.patch < b.patch
    else if a.stage != b.stage then a.stage < b.stage
    else a.serial < b.serial
  }

  lemma OlderIsAnOrder(a: Version, b: Version, c: Version)
    ensures !Older(a, a) && (Older(a, b) && Older(b, c) ==> Older(a, c))
    ensures a == b || Older(a, b) || Older(b, a)
  {
  }

  // A program file: its node, its bytes and the line it prints for its version
  // when it runs.
  datatype Program = Program(node: nat, bytes: string, line: string)

  datatype Target = Missing | Irregular | Installed(program: Program)

  datatype Launcher = NoLauncher | Ours(node: nat) | Foreign

  datatype Install = Install(target: Target, launcher: Launcher)

  // What one updater brings: the staged program, the line it expects and the
  // node its launcher would get.
  datatype Update = Update(staged: Program, expected: string, link: nat)

  // Which of the steps after the lock fail. An interrupt comes after the
  // replacement and before it is noted.
  datatype Faults = Faults(
    observe: bool, backup: bool, symlink: bool, stage: bool, replace: bool, interrupt: bool, verify: bool,
    ownership: bool, restore: bool, unlink: bool, report: bool)

  datatype Outcome =
    | LocalUnusable | InstalledUnusable | NotOlder  // rejected, nothing started
    | Failed
    | Published

  type Release = string -> Option<Version>

  /* ----- specification ----- */

  predicate Verified(u: Update, f: Faults) {
    !f.verify && u.staged.line == u.expected
  }

  // The version test on what is installed.
  function Admission(s: Install, u: Update, f: Faults, release: Release): Option<Outcome> {
    if release(u.expected).None? then Some(LocalUnusable)
    else if s.target.Irregular? then Some(Failed)
    else if s.target.Missing? then None
    else if f.observe || release(s.target.program.line).None? then Some(InstalledUnusable)
    else if !Older(release(s.target.program.line).value, release(u.expected).value) then Some(NotOlder)
    else if f.backup then Some(Failed)
    else None
  }

  predicate Creates(s: Install) { s.launcher.NoLauncher? }

  function Linked(s: Install, u: Update): Launcher {
    if Creates(s) then Ours(u.link) else s.launcher
  }

  // The launcher after the handler's last step.
  function Unlinked(s: Install, u: Update, f: Faults): Launcher {
    if Creates(s) && !f.unlink then NoLauncher else Linked(s, u)
  }

  function RolledBack(s: Install, u: Update, f: Faults): Install {
    if f.ownership || f.restore then Install(Installed(u.staged), Linked(s, u))
    else Install(s.target, Unlinked(s, u, f))
  }

  function Publish(s: Install, u: Update, f: Faults, release: Release): (Install, Outcome) {
    if Admission(s, u, f, release).Some? then (s, Admission(s, u, f, release).value)
    else if s.launcher.Foreign? || (Creates(s) && f.symlink) then (s, Failed)
    else if f.stage then (Install(s.target, Linked(s, u)), Failed)
    else if f.replace then (Install(s.target, Unlinked(s, u, f)), Failed)
    else if f.interrupt then (Install(Installed(u.staged), Unlinked(s, u, f)), Failed)
    else if Verified(u, f) then (Install(Installed(u.staged), Linked(s, u)), if f.report then Failed else Published)
    else (RolledBack(s, u, f), Failed)
  }

  /* ----- the program ----- */

  class Installation {
    var target: Target
    var launcher: Launcher
    const release: Release

    constructor (parse: Release)
      ensures target == Missing && launcher == NoLauncher && release == parse
    {
      target, launcher, release := Missing, NoLauncher, parse;
    }

    ghost function Now(): Install
      reads this
    {
      Install(target, launcher)
    }

    method TestVersion(u: Update, f: Faults) returns (refused: Option<Outcome>)
      ensures refused == Admission(Now(), u, f, release)
    {
      var wanted := release(u.expected);
      if wanted.None? {
        return Some(LocalUnusable);
      }
      if target.Irregular? {
        return Some(Failed);
      }
      if target.Installed? {
        var current := if f.observe then None else release(target.program.line);
        if current.None? {
          return Some(InstalledUnusable);
        }
        if current.value == wanted.value || Older(wanted.value, current.value) {
          OlderIsAnOrder(current.value, wanted.value, current.value);
          return Some(NotOlder);
        }
        OlderIsAnOrder(current.value, wanted.value, current.value);
        if f.backup {
          return Some(Failed);
        }
      }
      refused := None;
    }

    // Everything one updater does while it holds the lock.
    method RunPublisher(u: Update, f: Faults) returns (outcome: Outcome)
      modifies this
      ensures (Now(), outcome) == Publish(old(Now()), u, f, release)
    {
      var refused := TestVersion(u, f);
      if refused.Some? {
        return refused.value;
      }
      var previous := target.Installed?;
      var backup := target;
      var created := false;
      if !launcher.NoLauncher? {
        if launcher.Foreign? {
          return Failed;
        }
      } else {
        if f.symlink {
          return Failed;
        }
        launcher := Ours(u.link);
        created := true;
      }
      if f.stage {
        return Failed;
      }
      var published := false;
      if !f.replace {
        target := Installed(u.staged);
        if !f.interrupt {
          published := true;
          if !f.verify && u.staged.line == u.expected {
            return if f.report then Failed else Published;
          }
        }
      }
      // The handler.
      var owned := !published || (target == Installed(u.staged) && !f.ownership);
      if published && owned {
        if f.restore {
          return Failed;
        }
        target := if previous then backup else Missing;
      }
      if created && owned && launcher == Ours(u.link) && !f.unlink {
        launcher := NoLauncher;
      }
      outcome := Failed;
    }
  }

  /* ----- one update ----- */

  // The staged program is put in place.
  predicate Replaces(s: Install, u: Update, f: Faults, release: Release) {
    && Admission(s, u, f, release).None? && !s.launcher.Foreign? && !(Creates(s) && f.symlink)
    && !f.stage && !f.replace
  }

  // The staged program stays without having been verified: the handler does not
  // know that it is there, or the rollback does not complete.
  predicate LeavesUnverified(s: Install, u: Update, f: Faults, release: Release) {
    Replaces(s, u, f, release) && (f.interrupt || (!Verified(u, f) && (f.ownership || f.restore)))
  }

  // The installed program is strictly newer than what was there.
  predicate Newer(before: Target, after: Target, release: Release) {
    && after.Installed? && release(after.program.line).Some?
    && (before.Installed? ==>
          && release(before.program.line).Some?
          && Older(release(before.program.line).value, release(after.program.line).value))
  }

  // Whichever steps fail, the program is the staged one, verified and strictly
  // newer, or byte for byte what it was. The exception, exactly, is an interrupt
  // right behind the replacement or a rollback that fails itself; then the
  // staged program is left installed without having been verified. Success is
  // reported only for the first, and always unless the report fails. A rejected
  // update changes nothing, and another installation's launcher is never touched.
  lemma UpdateIsAllOrNothing(s: Install, u: Update, f: Faults, release: Release)
    ensures var (after, outcome) := Publish(s, u, f, release);
            var done := Replaces(s, u, f, release) && Verified(u, f) && !f.interrupt;
            && (done ==> after.target == Installed(u.staged) && u.staged.line == u.expected && Newer(s.target, after.target, release))
            && (!done && !LeavesUnverified(s, u, f, release) ==> after.target == s.target)
            && (LeavesUnverified(s, u, f, release) ==> outcome == Failed && after.target == Installed(u.staged))
            && (outcome == Published <==> done && !f.report)
    ensures var (after, outcome) := Publish(s, u, f, release);
            && (outcome.LocalUnusable? || outcome.InstalledUnusable? || outcome.NotOlder? || s.launcher.Foreign? ==> after == s)
            && (outcome == Published ==> after.launcher.Ours? && (s.launcher.Ours? ==> after.launcher == s.launcher))
  {
  }

  // When a call without success leaves a launcher it made: a failure between
  // making it and the guarded part, a handler that cannot finish, or a lost
  // report of a completed update.
  lemma LauncherLeftIff(s: Install, u: Update, f: Faults, release: Release)
    requires s.launcher.NoLauncher? && Publish(s, u, f, release).1 != Published
    ensures Publish(s, u, f, release).0.launcher != NoLauncher <==>
            && Admission(s, u, f, release).None? && !f.symlink
            && (f.stage || f.unlink
                || (Replaces(s, u, f, release) && !f.interrupt && (Verified(u, f) || f.ownership || f.restore)))
  {
  }

  /* ----- any sequence of updaters ----- */

  datatype Call = Call(update: Update, faults: Faults)

  function Run(s: Install, calls: seq<Call>, release: Release): Install {
    if calls == [] then s
    else
      var before := Run(s, calls[..|calls| - 1], release);
      var last := calls[|calls| - 1];
      Publish(before, last.update, last.faults, release).0
  }

  predicate AllVerified(s: Install, calls: seq<Call>, release: Release) {
    forall i :: 0 <= i < |calls| ==> !LeavesUnverified(Run(s, calls[..i], release), calls[i].update, calls[i].faults, release)
  }

  // As the holders of the lock leave them one after another, installed
  // versions never decrease: a later program is the same file or strictly
  // newer, and a program once installed is never gone.
  lemma {:induction false} VersionsNeverDecrease(s: Install, calls: seq<Call>, i: nat, release: Release)
    requires i <= |calls| && AllVerified(s, calls, release)
    ensures var before, after := Run(s, calls[..i], release).target, Run(s, calls, release).target;
            before == after || Newer(before, after, release)
    decreases |calls|
  {
    if i == |calls| {
      assert calls[..i] == calls;
    } else {
      var init := calls[..|calls| - 1];
      assert init[..i] == calls[..i];
      forall k | 0 <= k < |init|
        ensures !LeavesUnverified(Run(s, init[..k], release), init[k].update, init[k].faults, release)
      {
        assert init[..k] == calls[..k];
      }
      VersionsNeverDecrease(s, init, i, release);
      var last := calls[|calls| - 1];
      UpdateIsAllOrNothing(Run(s, init, release), last.update, last.faults, release);
      NewerTwice(Run(s, calls[..i], release).target, Run(s, init, release).target, Run(s, calls, release).target, release);
    }
  }

  lemma NewerTwice(a: Target, b: Target, c: Target, release: Release)
    requires a == b || Newer(a, b, release)
    requires b == c || Newer(b, c, release)
    ensures a == c || Newer(a, c, release)
  {
    if a != b && b != c && a.Installed? {
      OlderIsAnOrder(release(a.program.line).value, release(b.program.line).value, release(c.program.line).value);
    }
  }

  // Every program a run installs was verified: it printed the expected line.
  lemma {:induction false} InstalledWasVerified(s: Install, calls: seq<Call>, release: Release)
    requires AllVerified(s, calls, release)
    ensures var t := Run(s, calls, release).target;
            t == s.target
            || exists i :: 0 <= i < |calls| && t == Installed(calls[i].update.staged)
                           && Verified(calls[i].update, calls[i].faults)
    decreases |calls|
  {
    if calls != [] {
      var init := calls[..|calls| - 1];
      forall k | 0 <= k < |init|
        ensures !LeavesUnverified(Run(s, init[..k], release), init[k].update, init[k].faults, release)
      {
        assert init[..k] == calls[..k];
      }
      InstalledWasVerified(s, init, release);
      var last := calls[|calls| - 1];
      assert LeavesUnverified(Run(s, calls[..|calls| - 1], release), last.update, last.faults, release) == false;
      UpdateIsAllOrNothing(Run(s, init, release), last.update, last.faults, release);
      if Replaces(Run(s, init, release), last.update, last.faults, release) && Verified(last.update, last.faults)
         && !last.faults.interrupt {
        assert Run(s, calls, release).target == Installed(calls[|calls| - 1].update.staged);
      } else if Run(s, init, release).target != s.target {
        var i :| 0 <= i < |init| && Run(s, init, release).target == Installed(init[i].update.staged)
          && Verified(init[i].update, init[i].faults);
        assert init[i] == calls[i];
      }
    }
  }
}
