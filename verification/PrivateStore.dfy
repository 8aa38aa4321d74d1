/** The private stores of presets and addresses: locked writers with
    compare-and-swap (session_peer_core/presets.py and addresses.py). */
module PrivateStore {
  import opened Text

  const MAX_ENTRIES := 128
  const MAX_BYTES := 65536

  // A stored entry. Sound says that the fields not modelled one by one, held
  // in text, pass validation.
  datatype Entry =
    | Route(text: string, sound: bool)
    | Selection(binding: string, caption: string, text: string, sound: bool)

  type Entries = map<string, Entry>

  // A change token: the hash of a name and its entry, without collisions.
  datatype Revision = Revision(name: string, entry: Entry)

  datatype Action = Add | Replace | Remove

  datatype StoreError =
    | InvalidName | InvalidEntry | RevisionRequired | InvalidRevision
    | NotFound | AlreadyExists | RevisionMismatch | DuplicateLabel | Capacity
    | UnsafeStorage | Corrupt | CommitUnconfirmed

  // How the storage behaves under one call: a failure can come at any step
  // before the new file is put in place, or after it.
  datatype Storage = Works | FailsBefore | FailsAfter

  predicate NameOk(name: string) {
    && 1 <= |name| <= 64 && 'a' <= name[0] <= 'z'
    && forall i :: 0 <= i < |name| ==>
         'a' <= name[i] <= 'z' || '0' <= name[i] <= '9' || name[i] == '_' || name[i] == '-'
  }

  predicate EntryOk(e: Entry) {
    e.sound && (e.Selection? ==> IsUuid4(e.binding))
  }

  predicate LabelsDistinct(entries: Entries) {
    forall a <- entries, b <- entries ::
      a != b && entries[a].Selection? && entries[b].Selection? ==> entries[a].caption != entries[b].caption
  }

  predicate AllOk(entries: Entries) {
    forall n <- entries :: NameOk(n) && EntryOk(entries[n])
  }

  predicate Fits(entries: Entries, size: Entries -> nat) {
    |entries| <= MAX_ENTRIES && size(entries) <= MAX_BYTES
  }

  // What the read side accepts as the contents of a store's file.
  predicate Decodable(entries: Entries, size: Entries -> nat) {
    Fits(entries, size) && AllOk(entries) && LabelsDistinct(entries)
  }

  // No file reads as no entries.
  function Stored(file: Option<Entries>): Entries {
    if file.None? then map[] else file.value
  }

  function Read(file: Option<Entries>, size: Entries -> nat): Result<Entries, StoreError> {
    if file.None? then Ok(map[])
    else if !Fits(file.value, size) then Err(Capacity)
    else if !AllOk(file.value) || !LabelsDistinct(file.value) then Err(Corrupt)
    else Ok(file.value)
  }

  datatype Request = Request(action: Action, name: string, entry: Option<Entry>, expected: Option<Revision>)

  // The checks before the store is opened.
  function CheckRequest(q: Request): Option<StoreError> {
    if !NameOk(q.name) then Some(InvalidName)
    else if q.action != Remove && (q.entry.None? || !EntryOk(q.entry.value)) then Some(InvalidEntry)
    else if q.action == Remove && q.entry.Some? then Some(InvalidEntry)
    else if q.action != Add && q.expected.None? then Some(RevisionRequired)
    else if q.action == Add && q.expected.Some? then Some(InvalidRevision)
    else None
  }

  // The checks against the entries that were read.
  function CheckCurrent(q: Request, entries: Entries): Option<StoreError> {
    if q.action == Add then
      if q.name in entries then Some(AlreadyExists) else None
    else if q.name !in entries then Some(NotFound)
    else if Some(Revision(q.name, entries[q.name])) != q.expected then Some(RevisionMismatch)
    else None
  }

  function Changed(q: Request, entries: Entries): Entries
    requires q.action != Remove ==> q.entry.Some?
  {
    if q.action == Remove then entries - {q.name} else entries[q.name := q.entry.value]
  }

  // The entries to write, once they are read.
  function Prepare(q: Request, entries: Entries, size: Entries -> nat): Result<Entries, StoreError>
    requires CheckRequest(q).None?
  {
    if CheckCurrent(q, entries).Some? then Err(CheckCurrent(q, entries).value)
    else if !LabelsDistinct(Changed(q, entries)) then Err(DuplicateLabel)
    else if !Fits(Changed(q, entries), size) then Err(Capacity)
    else Ok(Changed(q, entries))
  }

  function Outcome(q: Request, file: Option<Entries>, size: Entries -> nat, s: Storage): Option<StoreError> {
    if CheckRequest(q).Some? then CheckRequest(q)
    else if s == FailsBefore then Some(UnsafeStorage)
    else if Read(file, size).Err? then Some(Read(file, size).error)
    else if Prepare(q, Read(file, size).value, size).Err? then Some(Prepare(q, Read(file, size).value, size).error)
    else if s == FailsAfter then Some(CommitUnconfirmed)
    else None
  }

  predicate Commits(q: Request, file: Option<Entries>, size: Entries -> nat, s: Storage) {
    Outcome(q, file, size, s).None? || Outcome(q, file, size, s) == Some(CommitUnconfirmed)
  }

  // The file after one call.
  function After(q: Request, file: Option<Entries>, size: Entries -> nat, s: Storage): Option<Entries> {
    if Commits(q, file, size, s) then Some(Prepare(q, Read(file, size).value, size).value) else file
  }

  /* ----- the program ----- */

  // Validates every entry and keeps the labels seen so far.
  method ValidateLabels(entries: Entries) returns (ok: bool)
    ensures ok <==> AllOk(entries) && LabelsDistinct(entries)
  {
    var labels: set<string>, rest := {}, entries.Keys;
    while rest != {}
      invariant rest <= entries.Keys
      invariant forall n :: n in entries && n !in rest ==> NameOk(n) && EntryOk(entries[n])
      invariant forall n :: n in entries && n !in rest && entries[n].Selection? ==> entries[n].caption in labels
      invariant forall l <- labels :: exists n :: n in entries && n !in rest && entries[n].Selection? && entries[n].caption == l
      invariant forall a, b :: a in entries && b in entries && a !in rest && b !in rest && a != b ==>
        entries[a].Selection? && entries[b].Selection? ==> entries[a].caption != entries[b].caption
    {
      var name :| name in rest;
      var entry := entries[name];
      if !NameOk(name) || !EntryOk(entry) {
        return false;
      }
      if entry.Selection? {
        if entry.caption in labels {
          return false;
        }
        labels := labels + {entry.caption};
      }
      rest := rest - {name};
    }
    ok := true;
  }

  lemma ChangedStaysOk(q: Request, entries: Entries)
    requires CheckRequest(q).None? && AllOk(entries)
    ensures AllOk(Changed(q, entries))
  {
  }

  class PrivateFile {
    var content: Option<Entries>
    const size: Entries -> nat

    constructor (encodedSize: Entries -> nat)
      ensures content == None && size == encodedSize
    {
      content := None;
      size := encodedSize;
    }

    method ReadEntries() returns (r: Result<Entries, StoreError>)
      ensures r == Read(content, size)
      ensures r.Ok? ==> AllOk(r.value)
    {
      if content.None? {
        return Ok(map[]);
      }
      if |content.value| > MAX_ENTRIES || size(content.value) > MAX_BYTES {
        return Err(Capacity);
      }
      var valid := ValidateLabels(content.value);
      hide AllOk, LabelsDistinct;
      if !valid {
        return Err(Corrupt);
      }
      r := Ok(content.value);
    }

    method PrepareEntries(q: Request, current: Entries) returns (r: Result<Entries, StoreError>)
      requires CheckRequest(q).None? && AllOk(current)
      ensures r == Prepare(q, current, size)
    {
      if q.action == Add {
        if q.name in current {
          return Err(AlreadyExists);
        }
      } else {
        if q.name !in current {
          return Err(NotFound);
        }
        if q.expected != Some(Revision(q.name, current[q.name])) {
          return Err(RevisionMismatch);
        }
      }
      ChangedStaysOk(q, current);
      hide AllOk, LabelsDistinct, CheckRequest;
      var entries := current;
      if q.action == Remove {
        entries := entries - {q.name};
      } else {
        entries := entries[q.name := q.entry.value];
      }
      var valid := ValidateLabels(entries);
      if !valid {
        return Err(DuplicateLabel);
      }
      if |entries| > MAX_ENTRIES || size(entries) > MAX_BYTES {
        return Err(Capacity);
      }
      r := Ok(entries);
    }

    method Mutate(q: Request, s: Storage) returns (error: Option<StoreError>)
      modifies this
      ensures error == Outcome(q, old(content), size, s)
      ensures content == After(q, old(content), size, s)
    {
      hide AllOk, Prepare, Read;
      var refused := CheckRequest(q);
      if refused.Some? {
        return refused;
      }
      if s == FailsBefore {
        return Some(UnsafeStorage);
      }
      var present := ReadEntries();
      if present.Err? {
        ReadErrors(content, size);
        return Some(present.error);
      }
      var entries := PrepareEntries(q, present.value);
      if entries.Err? {
        NeverUnconfirmed(q, present.value, size);
        return Some(entries.error);
      }
      content := Some(entries.value);
      if s == FailsAfter {
        return Some(CommitUnconfirmed);
      }
      error := None;
    }
  }

  lemma NeverUnconfirmed(q: Request, entries: Entries, size: Entries -> nat)
    requires CheckRequest(q).None?
    ensures Prepare(q, entries, size) != Err(CommitUnconfirmed)
  {
  }

  lemma ReadErrors(file: Option<Entries>, size: Entries -> nat)
    ensures Read(file, size) != Err(CommitUnconfirmed)
    ensures Read(file, size).Ok? <==> file.None? || Decodable(file.value, size)
  {
  }

  lemma ReadIsStored(file: Option<Entries>, size: Entries -> nat)
    ensures Read(file, size).Ok? ==> Read(file, size).value == Stored(file) && AllOk(Stored(file))
  {
  }

  /* ----- a plain map with compare-and-swap ----- */

  // The change a plain map would make.
  predicate Swapped(q: Request, before: Entries, after: Entries) {
    match q.action
    case Add => q.name !in before && q.entry.Some? && after == before[q.name := q.entry.value]
    case Replace =>
      && q.name in before && q.expected == Some(Revision(q.name, before[q.name]))
      && q.entry.Some? && after == before[q.name := q.entry.value]
    case Remove =>
      && q.name in before && q.expected == Some(Revision(q.name, before[q.name]))
      && after == before - {q.name}
  }

  lemma PreparedIsSwap(q: Request, entries: Entries, size: Entries -> nat)
    requires CheckRequest(q).None? && Prepare(q, entries, size).Ok?
    ensures var after := Prepare(q, entries, size).value;
            && Swapped(q, entries, after) && after == Changed(q, entries) && Fits(after, size) && LabelsDistinct(after)
            && forall n :: n != q.name ==> (n in after <==> n in entries) && (n in entries ==> after[n] == entries[n])
  {
    hide LabelsDistinct, Fits;
  }

  // Every committed call acts on exactly the entry whose revision its caller
  // supplied and leaves the others; every other call leaves the store alone.
  // What is committed is read back as it was written.
  lemma MutationRefinesSwap(q: Request, file: Option<Entries>, size: Entries -> nat, s: Storage)
    ensures var after := After(q, file, size, s);
            if Commits(q, file, size, s) then
              && Swapped(q, Stored(file), Stored(after))
              && Decodable(Stored(after), size) && Read(after, size) == Ok(Stored(after))
              && forall n :: n != q.name ==>
                   (n in Stored(after) <==> n in Stored(file)) && (n in Stored(file) ==> Stored(after)[n] == Stored(file)[n])
            else after == file
  {
    ReadIsStored(file, size);
    ReadErrors(file, size);
    if Commits(q, file, size, s) {
      NeverUnconfirmed(q, Stored(file), size);
      ChangedStaysOk(q, Stored(file));
      PreparedIsSwap(q, Stored(file), size);
      hide AllOk, LabelsDistinct, Fits, CheckRequest, Swapped, Prepare;
    }
  }

  // And a swap whose result may be stored is committed when the storage works.
  lemma SwapCommits(q: Request, file: Option<Entries>, size: Entries -> nat, after: Entries)
    requires CheckRequest(q).None? && Read(file, size).Ok? && Swapped(q, Stored(file), after)
    requires Fits(after, size) && LabelsDistinct(after)
    ensures Outcome(q, file, size, Works).None? && Stored(After(q, file, size, Works)) == after
  {
  }

  /* ----- runs of writers ----- */

  datatype Call = Call(request: Request, storage: Storage)

  // The file, every binding identifier drawn so far, and how many committed
  // calls changed each name.
  datatype Store = Store(file: Option<Entries>, drawn: set<string>, changes: map<string, nat>)

  function Changes(s: Store, name: string): nat {
    if name in s.changes then s.changes[name] else 0
  }

  function Next(s: Store, c: Call, size: Entries -> nat): Store {
    var q := c.request;
    Store(After(q, s.file, size, c.storage),
          if q.entry.Some? && q.entry.value.Selection? then s.drawn + {q.entry.value.binding} else s.drawn,
          if Commits(q, s.file, size, c.storage) then s.changes[q.name := Changes(s, q.name) + 1] else s.changes)
  }

  function Run(s: Store, calls: seq<Call>, size: Entries -> nat): Store
    decreases |calls|
  {
    if calls == [] then s else Run(Next(s, calls[0], size), calls[1..], size)
  }

  predicate Readable(s: Store, size: Entries -> nat) {
    s.file.Some? ==> Decodable(s.file.value, size)
  }

  // Every snapshot of every run has at most 128 entries within the size limit,
  // valid, with distinct labels, and is read back as written.
  lemma {:induction false} RunStaysReadable(s: Store, calls: seq<Call>, size: Entries -> nat)
    requires Readable(s, size)
    ensures Readable(Run(s, calls, size), size)
    ensures Read(Run(s, calls, size).file, size) == Ok(Stored(Run(s, calls, size).file))
    decreases |calls|
  {
    if calls != [] {
      MutationRefinesSwap(calls[0].request, s.file, size, calls[0].storage);
      RunStaysReadable(Next(s, calls[0], size), calls[1..], size);
    }
  }

  // Address writers: every entry is a selection with a binding identifier that
  // was never drawn before.
  predicate FreshBindings(s: Store, calls: seq<Call>, size: Entries -> nat)
    decreases |calls|
  {
    calls == [] ||
    (&& (calls[0].request.entry.Some? ==>
           calls[0].request.entry.value.Selection? && calls[0].request.entry.value.binding !in s.drawn)
     && FreshBindings(Next(s, calls[0], size), calls[1..], size))
  }

  predicate Drawn(s: Store) {
    s.file.Some? ==> forall n <- s.file.value :: s.file.value[n].Selection? && s.file.value[n].binding in s.drawn
  }

  lemma {:induction false} ChangesGrow(s: Store, calls: seq<Call>, size: Entries -> nat, name: string)
    ensures Changes(s, name) <= Changes(Run(s, calls, size), name)
    decreases |calls|
  {
    if calls != [] {
      ChangesGrow(Next(s, calls[0], size), calls[1..], size, name);
    }
  }

  lemma OneCallBringsNothingBack(s: Store, c: Call, size: Entries -> nat, name: string, e: Entry)
    requires Drawn(s) && e.Selection? && e.binding in s.drawn
    requires c.request.entry.Some? ==> c.request.entry.value.Selection? && c.request.entry.value.binding !in s.drawn
    requires name in Stored(s.file) ==> Stored(s.file)[name] != e
    ensures var next := Next(s, c, size);
            && Drawn(next) && e.binding in next.drawn
            && (name in Stored(next.file) ==> Stored(next.file)[name] != e)
  {
    MutationRefinesSwap(c.request, s.file, size, c.storage);
    hide Outcome, Decodable, Prepare;
  }

  // An entry that was once replaced or removed never comes back.
  lemma {:induction false} ReplacedNeverReturns(s: Store, calls: seq<Call>, size: Entries -> nat, name: string, e: Entry)
    requires Drawn(s) && FreshBindings(s, calls, size)
    requires e.Selection? && e.binding in s.drawn
    requires name in Stored(s.file) ==> Stored(s.file)[name] != e
    ensures var after := Stored(Run(s, calls, size).file); name in after ==> after[name] != e
    decreases |calls|
  {
    if calls != [] {
      var next := Next(s, calls[0], size);
      OneCallBringsNothingBack(s, calls[0], size, name, e);
      assert Run(s, calls, size) == Run(next, calls[1..], size) && FreshBindings(next, calls[1..], size);
      hide *;
      ReplacedNeverReturns(next, calls[1..], size, name, e);
    }
  }

  // One call either leaves a name's entry alone, or counts as a change of it
  // and leaves an entry that was never there.
  lemma OneCall(s: Store, c: Call, size: Entries -> nat, name: string)
    requires Drawn(s) && name in Stored(s.file)
    requires c.request.entry.Some? ==> c.request.entry.value.Selection? && c.request.entry.value.binding !in s.drawn
    ensures var next := Next(s, c, size);
            var e := Stored(s.file)[name];
            && Drawn(next) && s.drawn <= next.drawn && e.Selection? && e.binding in next.drawn
            && (if c.request.name == name && Commits(c.request, s.file, size, c.storage)
                then name in Stored(next.file) ==> Stored(next.file)[name] != e
                else name in Stored(next.file) && Stored(next.file)[name] == e && Changes(next, name) == Changes(s, name))
  {
    MutationRefinesSwap(c.request, s.file, size, c.storage);
    hide Outcome, Decodable, Prepare;
  }

  // No change is lost: when an address has the same revision at two moments of
  // a run, no committed call changed it in between.
  lemma {:induction false} SameRevisionMeansUnchanged(s: Store, calls: seq<Call>, size: Entries -> nat, name: string)
    requires Drawn(s) && FreshBindings(s, calls, size)
    requires name in Stored(s.file) && name in Stored(Run(s, calls, size).file)
    requires Revision(name, Stored(s.file)[name]) == Revision(name, Stored(Run(s, calls, size).file)[name])
    ensures Changes(s, name) == Changes(Run(s, calls, size), name)
    decreases |calls|
  {
    if calls != [] {
      var next := Next(s, calls[0], size);
      OneCall(s, calls[0], size, name);
      assert Run(s, calls, size) == Run(next, calls[1..], size) && FreshBindings(next, calls[1..], size);
      hide Next, Run, FreshBindings, Drawn, Commits, After, Changes;
      if calls[0].request.name == name && Commits(calls[0].request, s.file, size, calls[0].storage) {
        ReplacedNeverReturns(next, calls[1..], size, name, Stored(s.file)[name]);
        assert false;
      } else {
        SameRevisionMeansUnchanged(next, calls[1..], size, name);
      }
    }
  }

  // So a call that commits with a revision read earlier acts on an address no
  // other call has changed since.
  lemma CommitMeansNothingLost(s: Store, calls: seq<Call>, size: Entries -> nat, c: Call)
    requires Drawn(s) && FreshBindings(s, calls, size)
    requires c.request.action != Add && c.request.name in Stored(s.file)
    requires c.request.expected == Some(Revision(c.request.name, Stored(s.file)[c.request.name]))
    requires Commits(c.request, Run(s, calls, size).file, size, c.storage)
    ensures Changes(Run(s, calls, size), c.request.name) == Changes(s, c.request.name)
  {
    MutationRefinesSwap(c.request, Run(s, calls, size).file, size, c.storage);
    SameRevisionMeansUnchanged(s, calls, size, c.request.name);
  }

  // A preset has no such identifier: replaced and replaced back, it has its
  // old revision again, and a call based on the old reading commits.
  lemma PresetsCanComeBack(size: Entries -> nat, file: Entries, a: Entry, b: Entry, name: string)
    requires NameOk(name) && a.Route? && b.Route? && a != b && EntryOk(a) && EntryOk(b)
    requires name in file && file[name] == a && Decodable(file, size) && Decodable(file[name := b], size)
    ensures var there := Call(Request(Replace, name, Some(b), Some(Revision(name, a))), Works);
            var back := Call(Request(Replace, name, Some(a), Some(Revision(name, b))), Works);
            var s := Store(Some(file), {}, map[]);
            var t := Run(s, [there, back], size);
            && t.file == s.file && Changes(t, name) == 2
            && Commits(there.request, t.file, size, Works)
  {
    var there := Call(Request(Replace, name, Some(b), Some(Revision(name, a))), Works);
    var back := Call(Request(Replace, name, Some(a), Some(Revision(name, b))), Works);
    var s := Store(Some(file), {}, map[]);
    assert file[name := b][name := a] == file;
    var s1 := Next(s, there, size);
    assert s1.file == Some(file[name := b]) && Changes(s1, name) == 1;
    var s2 := Next(s1, back, size);
    assert s2.file == Some(file) && Changes(s2, name) == 2;
    assert [there, back][1..] == [back] && [back][1..] == [];
    assert Run(s2, [], size) == s2;
    assert Run(s1, [back], size) == s2;
  }
}
