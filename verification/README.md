# session-peer, verified

A Dafny model of the parts of session-peer where a mistake would be silent: the
handoff ledger that keeps a native effect from happening twice, and the smaller
stores, scanners and protocols around it. Every operation follows the branches,
constants and error cases of the Python code it cites.

- **Handoff ledger** (`HandoffRecord`, `HandoffSteps`, `HandoffLedger`,
  `HandoffPublic`): the persistent map from correlation ID to record, as a class
  whose methods are its locked transactions. `HandoffInvariant`, `HandoffProgress`
  and `HandoffRuns` say what one operation and one transaction keep;
  `HandoffSystem` puts any number of senders, collectors, waiters and the operator
  on one ledger, with a crash possible after every step, and `HandoffTheorems`
  holds the results about runs. `HandoffCapacity` is the reserve arithmetic for
  any encoding, `HandoffBytes` the length of a record, `HandoffRoom` the work that
  is never refused for space and `HandoffOverflow` the work that is.
  `HandoffEdges` has the inputs on which the code does not keep its own check, and
  `RemoteDeadlines` the time budgets carried to another host.
- **Codex** (`CodexConfig`, `CodexLayout`, `CodexDocument`, `CodexAccepted`,
  `CodexKeys`, `CodexEscapes`, `CodexAnswers`): the configuration scanner, what
  texts it accepts, what it answers for every document, which spelled keys it
  reads as TOML does and which documents it therefore answers wrongly; `CodexHome`
  selects one home from lock evidence.
- **Admission** (`Admission`, `AdmissionRuns`, `AdmissionFile`): single-use
  tickets and their replay file over restarts and losses.
- **Wake limiter** (`WakeChain`), **discovery** (`Discovery`, `DiscoveryOrder`),
  **message quoting and reply addresses** (`ReplyQuoting`, `Percent`, `ReplyUri`), **preset and
  address stores** (`PrivateStore`), **remote updater** (`Updater`).
- `Text`, `Json` and `Sequences` hold shared formats, the length of JSON text and
  sequence facts.

`dafny verify dfyconfig.toml` checks the project.

## How the model is built

A transaction under the file lock is one atomic method; its contract ties the
stored state to a function of the old state, and the lemmas are about that
function. A process keeps its place outside the ledger, because an effect lies
between two transactions. A hash is injective: a capability hash or a revision is
a constructor over what is hashed. The length of JSON text is counted where a
limit is the point: views, handoff records and the replay file; the two native
objects of a record carry their length, and the stores take theirs as a function.
The replay file holds integers, as the program writes it. Clock
readings, storage failures, probe results, random tokens and crashes are inputs.
Python's dynamic type tests on JSON become types, and a field that may be absent
for a false value is a boolean. Characters are Unicode scalar values.

## Where the code does not do what one would expect

- `quarantine_restored` clears the acknowledgement but leaves a satisfied wait,
  and such a record can no longer be exported
  (`HandoffEdges.QuarantineAfterReceiptHidesRecord`).
- Within five seconds of boot a refusal with a short wait, or a wait started with
  a budget of five seconds or less, stores a negative deadline, and the ledger then
  reads as corrupt (`HandoffEdges.RefusedSendLocksLedgerIff`,
  `HandoffEdges.StartedWaitLocksLedgerIff`).
- Authority minted in the last day the clock can represent is unreadable
  (`HandoffEdges.MintReadableIff`).
- The reserved 32768 bytes do not hold every record the load check admits: in a
  ledger of attempts with many destinations and long targets a commit is refused for
  space (`HandoffOverflow.FullLedgerRefusesCommit`, `HandoffOverflow.FullRecordRefusesCommit`).
  No send with an effect prepares such an attempt, so the program does not reach
  these ledgers; what it prepares always leaves enough
  (`HandoffBytes.SingleTargetIsRoomy`, `HandoffRoom.RoomyWorkIsNeverRefused`).
- The replay file is written without a limit and read with one: long ticket IDs
  outside ASCII lock the service out of its own file
  (`AdmissionFile.LongTicketsLockOut`).
- An eight-digit escape in a quoted configuration key is decoded twice
  (`CodexKeys.DoubleDecodedKey`); `CodexEscapes.PartReadIff` says exactly when the
  name still comes out right, `CodexAnswers.WrongAnswerIff` when the answer for a
  document is wrong, and the root key is never missed (`CodexKeys.NeverMissed`).
- The configuration scanner takes line ends inside a table header's brackets,
  which TOML v1.0.0 forbids (`CodexDocument.DocumentAnswered` covers them).
- A wake clock before the epoch at the first call, or above the largest stamp at
  any granted one, makes the stored list unreadable for good
  (`WakeChain.RunReadableIff`, `WakeChain.NegativeStart`).
- One live session record observed with two endpoints, and nothing else, makes
  the rows shown depend on the order of enumeration (`DiscoveryOrder.OrderDecidesIff`;
  `DiscoveryOrder.ConflictReportedIff` for the conflict report). Discovery scans a
  directory of one resolved path and identity only once, so this takes a directory
  that is replaced while discovery is at work.
- An older published state is accepted after a newer one when the replay file was
  lost, or after a plain restart when there is none (`AdmissionRuns.NeverRollsBackIff`).
- A failing updater can leave a launcher it made (`Updater.LauncherLeftIff`), and
  an unverified program when its rollback fails or it is interrupted right behind
  the replacement (`Updater.UpdateIsAllOrNothing`).

## Model

| member | source | states |
|---|---|---|
| HandoffTheorems.AtMostOneEffect | session_peer_core/handoff.py:1492-1535 | Over any interleaving of local and remote senders, collectors, waiters and the operator, with a crash possible after every step, an intent has at most one native effect, and it used the binding, generation and context its record was prepared with. |
| HandoffTheorems.EffectFollowsFence | session_peer_core/handoff.py:1492-1504 | When an effect happens its attempt is already saved, no outcome is, the sender still owns the intent and no earlier effect of that intent exists. |
| HandoffTheorems.LedgerNeverCorrupt | session_peer_core/handoff.py:367-379 | From an empty ledger every reachable record passes the check made on load, and the stronger invariant, so no transaction of any run is refused as corrupt. |
| HandoffTheorems.NextKeepsInv | session_peer_core/handoff.py:319-399 | The whole system invariant (records, senders, effects, receipts, authority) is kept by every step of every process. |
| HandoffTheorems.ExportsAreValid | session_peer_core/handoff.py:923-953 | Every reachable record is exported as a view that passes the closed-shape check, except exactly a quarantined record whose last wait is satisfied. |
| HandoffTheorems.OneReceiptPerIntent | session_peer_core/handoff.py:713-747 | All receipts ever accepted for one intent carry one receipt ID, and a token acknowledgement carries that ID. |
| HandoffTheorems.TokenAckIsJustified | session_peer_core/handoff.py:709-747 | A token acknowledgement was classified by the collector epoch that minted its authority, with that very token, unrevoked, within a day of the preparation, whatever restarts and early receipts came between. |
| HandoffTheorems.DeadAuthorityStaysUnused | session_peer_core/handoff.py:709-712 | Authority that is revoked, or absent once the intent left its prepared phase, never acknowledges anything later in a run. |
| HandoffTheorems.CollectorRestartIsFinal | session_peer_core/handoff.py:825-834 | After a collector start in a run, no record it found without an acknowledgement is ever acknowledged by a token, whatever is presented later and however many collectors follow. |
| HandoffTheorems.RunMoves | session_peer_core/handoff.py:381-391 | Along every run the intent never changes and prepared is never entered again; unless the record was expired or quarantined, a wait that left pending is final, an acknowledgement is never rewritten and a submitted or refused submission stays. |
| HandoffRuns.TransactionStep | session_peer_core/handoff.py:319-399 | What one committed transaction does to every record of the snapshot: no record is lost, and each moves only as its own operation, expiry, quarantine or a collector start allows. |
| HandoffRuns.ReceiveKeepsLocked | session_peer_core/handoff.py:713-747 | Once a receipt ID was accepted for a record, no later receipt or classification replaces it. |
| HandoffInvariant.ApplyKeepsStrong | session_peer_core/handoff.py:437-550 | Every operation on a record keeps the strengthened record invariant. |
| HandoffInvariant.ReceiveKeepsStrong | session_peer_core/handoff.py:705-753 | Early receipts, classifications and duplicates keep the strengthened invariant. |
| HandoffInvariant.CommitKeepsStrong | session_peer_core/handoff.py:1526-1535 | The terminal commit, which does not look at the phase again, keeps it for a record still in flight. |
| HandoffProgress.ApplyAdvances | session_peer_core/handoff.py:1046-1067 | No single operation rewrites a finished wait, an acknowledgement or a decided submission. |
| HandoffSystem.TransactionKeepsInv | session_peer_core/handoff.py:319-399 | A transaction by any process keeps the system invariant, senders in flight included. |
| HandoffPublic.PublicValidIff | session_peer_core/handoff.py:85-160 | A record with the stronger invariant exports as a valid view if and only if its last wait is not left satisfied without an acknowledgement; only quarantine leaves one so. |
| HandoffPublic.PublicFits | session_peer_core/handoff.py:97 | Any exported view encodes well within its byte limit, counting the JSON text key by key. |
| HandoffRecord.ValidIsWeakerThanStrong | session_peer_core/handoff.py:437-550 | The check made on load admits records no transaction writes: a pending wait for delivery. |
| HandoffPublic.CheckDoesNotImplyExport | session_peer_core/handoff.py:437-550 | The check made on load is too weak for the export: a record that passes it, with authority but no generation, has a refused view. |
| HandoffEdges.QuarantineAfterReceiptHidesRecord | session_peer_core/handoff.py:552-561 | Quarantine clears the acknowledgement but not a satisfied wait, after which the record cannot be exported. |
| HandoffEdges.AddedWaitValidIff | session_peer_core/handoff.py:1012-1026 | A record with a wait added is readable if and only if the wait's own fields are in range. |
| HandoffEdges.RefusalReadableIff | session_peer_core/handoff.py:1339-1349 | A refusal with a wait is readable again if and only if its deadline is not before the boot of the host; otherwise it is saved and the ledger reads as corrupt. |
| HandoffEdges.MintReadableIff | session_peer_core/handoff.py:690-696 | Minted authority is readable again if and only if its expiry still fits the clock range. |
| HandoffEdges.RefusedSendLocksLedgerIff | session_peer_core/handoff.py:1339-1349 | A refused send that was saved makes every later transaction on the ledger fail as corrupt, at any clock reading, if and only if its deadline is before the boot of the host. |
| HandoffEdges.StartedWaitLocksLedgerIff | session_peer_core/handoff.py:1028-1044 | A wait that was started and saved makes every later transaction fail as corrupt, at any clock reading, if and only if its deadline is before the boot of the host. |
| HandoffCapacity.RewriteFitsIff | session_peer_core/handoff.py:289-299 | After a snapshot was saved, rewriting its live records within the reserve fits if and only if the whole text fits: the reserve itself never stands in the way. |
| HandoffCapacity.StartedWorkCanBeSaved | session_peer_core/handoff.py:289-299 | For any encoding: rewriting records in place passes all three capacity tests again when every live record of the new snapshot, untouched ones included, leaves 40 bytes of its allowance and every rewritten one 64. |
| HandoffCapacity.CommitFitsWhenRecordsDo | session_peer_core/handoff.py:1526-1535 | For any encoding: a terminal commit to a live record is saved when every live record of the snapshot leaves 64 bytes of its allowance afterwards. |
| HandoffBytes.FactsAreBounded | session_peer_core/handoff.py:436-550 | From the field limits alone: everything that can happen to a record, 64 waits, an acknowledgement, authority, a receipt and 8192 bytes of native facts, adds at most 25391 bytes of JSON text. |
| HandoffBytes.AlwaysWithinIff | session_peer_core/handoff.py:3-4 | For an intent whose receipts can be collected, every valid record it can lead to fits a limit if and only if the text of the intent leaves those 25391 bytes and the frame: the bound is attained. |
| HandoffBytes.SingleTargetIsRoomy | session_peer_core/handoff.py:1203-1237 | An intent with one destination, a PID or thread as target and, for Codex, the home its context names leaves room for all of that within its reserved bytes. |
| HandoffRoom.RoomyWorkIsNeverRefused | session_peer_core/handoff.py:289-299 | With the real record lengths: from a saved snapshot whose live intents leave that room, no later change that adds no record and revives no tombstone is ever refused for space. |
| HandoffRoom.RoomyFitsIff | session_peer_core/handoff.py:289-299 | For any snapshot of such intents, new records and revived tombstones included, only the number of records and the reserve decide whether it is saved. |
| HandoffOverflow.FullLedgerRefusesCommit | session_peer_core/handoff.py:289-299 | Without that room the law fails: a ledger of 1022 attempts of exactly 32768 bytes and one of 24538 bytes is saved, and the commit of the small one is refused; with fewer of them it is saved. |
| HandoffOverflow.FullRecordRefusesCommit | session_peer_core/handoff.py:294-296 | An attempt that fills its 32768 bytes is saved, and its own commit is refused. |
| HandoffLedger.HandoffLedger.Open | session_peer_core/handoff.py:366-391 | Reads the snapshot: refuses it when any record fails the check, otherwise expires exactly the records older than 30 days of the same boot. |
| HandoffLedger.HandoffLedger.ReservedBytes | session_peer_core/handoff.py:291 | The reserve is the sum over all records of their tombstone or full-size cost. |
| HandoffLedger.HandoffLedger.Save | session_peer_core/handoff.py:289-316 | Stores the state, or leaves the file alone and names the capacity test that failed. |
| HandoffLedger.HandoffLedger.PrepareIntent | session_peer_core/handoff.py:414-425 | Adds one prepared record as one transaction. |
| HandoffLedger.HandoffLedger.ResumeIntent | session_peer_core/handoff.py:401-413 | Resumes a prepared record only with its own binding, generation and context. |
| HandoffLedger.HandoffLedger.BeginAttempt | session_peer_core/handoff.py:1495-1504 | Saves the attempt, and its wait, only for a prepared record before the cutoff. |
| HandoffLedger.HandoffLedger.CommitOutcome | session_peer_core/handoff.py:1526-1535 | Saves the outcome; without a submission it revokes authority and ends its own pending wait. |
| HandoffLedger.HandoffLedger.RefuseSend | session_peer_core/handoff.py:1339-1349 | Ends a prepared record as refused, with a wait that is already over. |
| HandoffLedger.HandoffLedger.BeginWait | session_peer_core/handoff.py:1034-1044 | Adds a wait, over at once when the budget is short or its collector is not the one that minted. |
| HandoffLedger.HandoffLedger.Poll | session_peer_core/handoff.py:1046-1058 | One look of a waiter: it ends satisfied, failed or timed out, or stays pending. |
| HandoffLedger.HandoffLedger.Stop | session_peer_core/handoff.py:1059-1066 | The operator stops a wait that is still pending. |
| HandoffLedger.HandoffLedger.MintCapability | session_peer_core/handoff.py:678-698 | Authority is minted once, for a prepared intent, on the boot it was prepared on and within its day. |
| HandoffLedger.HandoffLedger.Collect | session_peer_core/handoff.py:699-753 | A receipt or classification: held, acknowledged with its lateness, repeated or refused; pending waits of the collector's epoch are settled. |
| HandoffLedger.HandoffLedger.ConfirmByOperator | session_peer_core/handoff.py:1071-1085 | The operator confirms a submitted intent whose first wait timed out, never over an existing acknowledgement. |
| HandoffLedger.HandoffLedger.RevokeCapability | session_peer_core/handoff.py:1444-1447 | Withdraws authority when its set-up failed. |
| HandoffLedger.HandoffLedger.Look | session_peer_core/handoff.py:427-434 | Reading one record is a transaction too: it stores what expired. |
| HandoffLedger.HandoffLedger.StartCollector | session_peer_core/handoff.py:825-834 | A starting collector revokes every unused authority. |
| HandoffLedger.HandoffLedger.Quarantine | session_peer_core/handoff.py:552-561 | Quarantines every record. |
| RemoteDeadlines.MarginIff | session_peer_core/handoff_remote.py:410-431 | The two floored budgets differ by exactly five seconds if and only if the cutoff has not passed. |
| RemoteDeadlines.RemoteCutoffNeverLater | session_peer_core/handoff_remote.py:491-517 | With clocks of one rate and any offset, an accepted remote cutoff is never later than the sender's, and the effect starts strictly before it. |
| CodexHome.SelectableUnique | session_peer_core/codex.py:1122-1252 | At most one home can ever be selected. |
| CodexHome.InventoryHomes | session_peer_core/codex.py:1136-1166 | The inventory succeeds if and only if every home's storage and database could be read. |
| CodexHome.ResolveCodexHome | session_peer_core/codex.py:1122-1252 | Returns a home exactly when one is selectable: the unique live writer among saved homes with none unknown, or the explicit saved home with every saved home inactive; never another than an explicit choice. |
| CodexHome.RevalidateCodexHome | session_peer_core/codex.py:1255-1302 | Accepts a selection exactly when the new observations still support it. |
| CodexHome.AcceptedOwnerIsOneProcess | session_peer_core/codex.py:1068-1108 | When a live selection is re-checked and accepted, one and the same Codex process of this user held the lock of that home in all four samples of the two inspections, and every other saved home was free or absent in both. |
| CodexHome.RevalidationReselects | session_peer_core/codex.py:1255-1302 | An accepted re-check means the new observations alone would select the same home, with the same owner process and start time. |
| CodexConfig.Tokenize | session_peer_core/codex.py:49-100 | The nested loops over the text produce exactly the recursive token sequence, with the first error in text order. |
| CodexConfig.DecodeKey | session_peer_core/codex.py:103-131 | The loop over a dotted key decodes its segments at even places and dots between them. |
| CodexConfig.CloseStatement | session_peer_core/codex.py:139-157 | A finished statement is a header or an assignment, or is refused as neither. |
| CodexConfig.ScanForStorage | session_peer_core/codex.py:134-167 | The loop with its bracket stack computes the recursive scan of the token sequence. |
| CodexLayout.AcceptedIffLaidOut | session_peer_core/codex.py:49-100 | The lexer accepts a text if and only if it is laid out from blanks, comments, line ends, words, marks and strings whose contents never close them early. |
| CodexDocument.DocumentAnswered | session_peer_core/codex.py:134-167 | For every document of headers and assignments whose keys decode, in any layout, with nested brackets and strings of any contents, the answer is whether a header, or an assignment before any header, starts with the root key. |
| CodexAccepted.AbsentIffDocument | session_peer_core/codex.py:134-167 | A text is answered "not set" if and only if it is the layout of a document with decoding keys that does not set the root key; all other texts are refused or answered "set". |
| CodexAccepted.ContentsDoNotMatter | session_peer_core/codex.py:134-167 | Two documents with the same keys in the same places get the same answer, whatever their strings, comments and values. |
| CodexEscapes.PartReadIff | session_peer_core/codex.py:110-131 | A bare, literal or basic key part is decoded to the name TOML gives it if and only if the name has no control character and no eight-digit escape in it stands for a quote or backslash or follows an escaped backslash. |
| CodexKeys.RootKeyFound | session_peer_core/codex.py:134-167 | The document theorem in terms of TOML names of the spelled keys. |
| CodexAnswers.WrongAnswerIff | session_peer_core/codex.py:134-167 | For every document with spelled keys, in any layout: the answer differs from what the TOML names say if and only if the first entry that does not decode or is read as the root key does not decode, or is a false alarm in a document that does not set the root key. |
| CodexAnswers.FalseAlarmIsUnreadable | session_peer_core/codex.py:110-131 | A key with another name that is read as the root key always holds an eight-digit escape that is decoded twice or not at all. |
| CodexKeys.NeverMissed | session_peer_core/codex.py:134-167 | Whatever its other keys look like, a document that sets the root key is never answered "not set". |
| CodexKeys.DoubleDecodedKey | session_peer_core/codex.py:113-120 | The exception is real: a key with an escaped backslash is decoded twice and taken for another key. |
| Admission.ReplayFile.Initialize | session_peer_relay/auth.py:22-38 | Initialisation creates the file only when there is none, with a quiet period of 65 seconds after the next full second. |
| Admission.ControlAdmission.LoadReplay | session_peer_relay/auth.py:88-103 | Loads a file if and only if its text is within 262144 bytes and its shape, counts, key lengths and digest are in range. |
| Admission.ControlAdmission.PersistState | session_peer_relay/auth.py:109-117 | Memory follows the file: it changes only after the write succeeded. |
| Admission.ControlAdmission.State | session_peer_relay/auth.py:119-142 | A published state is accepted when current and not older than the remembered revision, which is saved first. |
| Admission.ControlAdmission.AuthorizeTicket | session_peer_relay/auth.py:163-207 | The order of checks of one admission, both readings of the state included, and the state it leaves. |
| AdmissionRuns.SingleUseIffReplayFile | session_peer_relay/auth.py:163-207 | No ticket is admitted twice over any run with a clock that never goes back, across restarts, failed writes and re-initialisation of lost state, if and only if there is a replay file. |
| AdmissionRuns.SpendKeepsBlocked | session_peer_relay/auth.py:201-206 | Pruning by expiry never forgets a live ticket. |
| AdmissionRuns.BootstrapBlocks | session_peer_relay/auth.py:22-38 | The quiet period of a new file refuses every ticket admitted before it. |
| AdmissionRuns.RestartReuses | session_peer_relay/auth.py:88-89 | The run in which a ticket is admitted again after a restart without a replay file. |
| AdmissionFile.FileLoadsIff | session_peer_relay/auth.py:88-117 | Over any run: the next start accepts the file that the service or the operator completely wrote if and only if its JSON text is at most 262144 bytes long; nothing else can refuse it. |
| AdmissionFile.PlainTicketsLoad | session_peer_relay/auth.py:88-117 | When no ticket ID needs a JSON escape, every file a run leaves is accepted, however full the list of used tickets is. |
| AdmissionFile.LongTicketsLockOut | session_peer_relay/auth.py:88-117 | A run that admits tickets with IDs of 128 characters outside ASCII leaves a file the next start refuses from the 338th ticket on, and accepts before. |
| AdmissionRuns.InitialLoadsIff | session_peer_relay/auth.py:22-38 | A newly initialised file loads if and only if the clock was less than 66 seconds before the epoch and its seconds are not too long to be read back. |
| AdmissionRuns.NeverRollsBackIff | session_peer_relay/auth.py:134-142 | Accepted revisions never decrease, and one revision is one state, over every run with restarts and failed writes, if and only if there is a replay file and it is never lost. |
| AdmissionRuns.AcceptedNeverRollBack | session_peer_relay/auth.py:134-142 | The positive half: while the file is kept, from any state in order. |
| AdmissionRuns.RestartRollsBack | session_peer_relay/auth.py:88-89 | Without a replay file a plain restart accepts an older revision after a newer one. |
| AdmissionRuns.LostFileRollsBack | session_peer_relay/auth.py:134-142 | When the file is lost and initialised anew, an older revision is accepted again. |
| WakeChain.CheckStamps | session_peer_core/wake_chain.py:99-102 | The stored list is accepted exactly when it is short, in range and sorted. |
| WakeChain.WakeTarget.ReserveAttempt | session_peer_core/wake_chain.py:82-115 | Grants one stamp or changes nothing. |
| WakeChain.AnyWindowIsBounded | session_peer_core/wake_chain.py:82-115 | For any clock readings, rollback included, granted stamps never decrease, a grant and the one limit places later are at least a minute apart, and the list stays sorted and within the limit. |
| WakeChain.GrantsPerMinute | session_peer_core/wake_chain.py:103-108 | Grants limit places apart, or more, are at least a minute apart. |
| WakeChain.RefusedIffWindowFull | session_peer_core/wake_chain.py:103-107 | A rate refusal means the window holds limit grants; without rollback such a window is always refused. |
| WakeChain.GrantReadableIff | session_peer_core/wake_chain.py:99-113 | A grant leaves a readable list if and only if the reading is not above the largest stamp and, into an empty list, not below zero. |
| WakeChain.RunReadableIff | session_peer_core/wake_chain.py:99-113 | Over any run the list is readable if and only if the first reading was not below zero and the last granted stamp is not above the largest. |
| WakeChain.NegativeStart | session_peer_core/wake_chain.py:99-113 | After a first reading below zero that grant is the only one there will ever be. |
| Discovery.CollectUnique | session_peer_core/claude.py:292-316 | The three indexes and the conflict set compute exactly the unique rows and those that share a PID, inbox path or inbox with another live one. |
| Discovery.FinishDiscovery | session_peer_core/claude.py:292-324 | Conflicting rows are shown unreachable, and a conflict is reported exactly when there is one. |
| Discovery.ReachableRowsAreApart | session_peer_core/claude.py:292-324 | No two reachable rows of a result share a PID, a non-empty inbox path or an inbox. |
| DiscoveryOrder.OrderDoesNotMatter | session_peer_core/claude.py:292-324 | When a live record determines its endpoint, the rows shown and the conflict report do not depend on the order of enumeration. |
| DiscoveryOrder.ResultIsVerdicts | session_peer_core/claude.py:292-324 | Under that condition what is shown is each record, unreachable if and only if a different live record contests it. |
| DiscoveryOrder.OrderDecidesIff | session_peer_core/claude.py:292-324 | Every reordering of the same sightings shows the same rows if and only if no live record was seen with two endpoints. |
| DiscoveryOrder.ConflictReportedIff | session_peer_core/claude.py:292-318 | Some order reports a conflict if and only if sightings of two different live records share a PID, a path or an inbox; some order reports none if and only if one sighting of every live record can be chosen so that none share; the report depends on the order when both hold. |
| DiscoveryOrder.TwoEndpointsOrderMatters | session_peer_core/claude.py:304-310 | Both can hold, for a record whose directory was replaced while discovery was at work: lines 335-338 scan one resolved directory of one identity only once. |
| Discovery.ResolveTarget | session_peer_core/claude.py:434-461 | Chooses the only reachable row that answers, or says why there is none, for any table of decimal digits and any case folding. |
| Discovery.PidIsNeverAmbiguous | session_peer_core/claude.py:434-461 | A PID never addresses two sessions of a discovery. |
| Discovery.DecimalTarget | session_peer_core/claude.py:134-148 | A target of decimal digits of any script chooses a session only by the PID it spells, within ten digits and the platform bounds; it is never ambiguous and never a name. |
| Discovery.ChosenIsTheOnlyAnswer | session_peer_core/claude.py:434-461 | A chosen session is the only one that answers to the target. |
| ReplyQuoting.PeerDeliveryMessage | session_peer_core/replies.py:252-283 | Builds the framed message, or refuses a malformed fingerprint. |
| ReplyQuoting.MessageLines | session_peer_core/replies.py:252-283 | Split at line feeds, a message is the fixed header, one line starting with "| " per body line and one closing line; no quoted line holds a control or bidi character, and clean lines are carried unchanged. |
| ReplyQuoting.NeutralIsSafe | session_peer_core/replies.py:275-281 | Neutralising a line leaves no such character, and leaves a line alone if and only if it had none. |
| Percent.Utf8RoundTrip | session_peer_core/replies.py:342-348 | UTF-8 encoding, as used by the query encoder, is undone by the decoder that replaces malformed input. |
| Percent.QuoteRoundTrip | session_peer_core/replies.py:342-348 | Every text is read back from its percent-encoded form. |
| ReplyUri.ReplyAddress | session_peer_core/replies.py:322-351 | Prints the address of an identity whose fields are in range, within the length limit, and says why not otherwise. |
| ReplyUri.ParseReplyAddress | session_peer_core/replies.py:354-410 | Parses an address with every refusal in order: length, controls, form, escapes, fields, values. |
| ReplyUri.PrintedIsRead | session_peer_core/replies.py:354-410 | A printed address is parsed into exactly the fields that were printed. |
| ReplyUri.ReplyRoundTrip | session_peer_core/replies.py:322-410 | Parsing a printed address returns the same agent, session, transport, host and home if and only if the session, host and home are ones the parser takes, homes on Windows drives and shares included; otherwise it refuses. |
| ReplyUri.ShareHomeReturns | session_peer_core/replies.py:322-410 | A session whose home is on a Windows share, for any server and share, has an address that is read back with that home. |
| ReplyUri.AddressesAreDistinct | session_peer_core/replies.py:322-351 | Identities with one printed address have the same fields. |
| PrivateStore.ValidateLabels | session_peer_core/addresses.py:144-151 | The loop accepts exactly the entries that are valid with distinct labels. |
| PrivateStore.PrivateFile.Mutate | session_peer_core/presets.py:444-556 | One locked change: its error and the file it leaves, with a failure possible before or after the replacement. |
| PrivateStore.MutationRefinesSwap | session_peer_core/presets.py:444-556 | Every committed call, confirmed or not, acts on exactly the entry whose revision its caller supplied, leaves all other entries and reads back as written; every other call changes nothing. |
| PrivateStore.SwapCommits | session_peer_core/presets.py:444-556 | A swap that is allowed and fits is committed when the storage works. |
| PrivateStore.RunStaysReadable | session_peer_core/presets.py:237-254 | Every snapshot of every run has at most 128 valid entries within the size limit, distinct labels, and decodes to what was written. |
| PrivateStore.SameRevisionMeansUnchanged | session_peer_core/addresses.py:207-223 | For addresses, whose every change draws a fresh binding ID, the same revision at two moments means no change in between. |
| PrivateStore.CommitMeansNothingLost | session_peer_core/addresses.py:207-223 | So an address change based on an earlier reading commits only when nothing was changed since. |
| PrivateStore.PresetsCanComeBack | session_peer_core/presets.py:219-225 | Presets have no such ID: replaced and replaced back, an old revision is accepted. |
| Updater.Installation.RunPublisher | session_peer_core/ssh.py:718-787 | The publisher's steps with its flags and rollback handler, under any failing steps, as a function of what was installed. |
| Updater.UpdateIsAllOrNothing | session_peer_core/ssh.py:718-787 | Whatever step fails, the program is byte for byte what it was, or the staged one, verified and strictly newer; success is reported only for the second. The exception, exactly: an interrupt between the replacement and the flag that records it, or a rollback that itself fails, leaves the staged program unverified. A rejected update changes nothing, and another installation's launcher is never touched. |
| Updater.LauncherLeftIff | session_peer_core/ssh.py:739-787 | A failed first update leaves its launcher behind if and only if it failed between making it and the guarded part, the handler could not finish its rollback, or only the report of a completed update failed. |
| Updater.VersionsNeverDecrease | session_peer_core/ssh.py:700-791 | Over any sequence of updaters none of which leaves an unverified program, a later program is the same file or strictly newer. |
| Updater.InstalledWasVerified | session_peer_core/ssh.py:764-787 | Over such a sequence every newly installed program was verified. |
| Updater.OlderIsAnOrder | session_peer_core/ssh.py:680-695 | The version order used by the test is a strict total order. |

## Left out

- Sockets, pipes, subprocesses, signals, fsync, file permissions and path
  identity checks: a transaction is atomic, an effect is one event, a crash is a
  lost process.
- Cryptography: signatures, device proofs and token randomness are inputs; fresh
  UUIDs are assumed fresh.
- Native outcome snapshots are reduced to the target they name and the shape the
  ledger checks; the binding given to prepare is assumed well formed, as its
  callers make it.
- The handoff send command before its fence (argument handling, producer set-up)
  and the framing of its JSON channel; the transactions it runs are all modelled.
- RemoteDeadlines.MarginIff: is stated for exact arithmetic; rounding of the
  host's floating-point clock is not modelled.
- HandoffBytes.AlwaysWithinIff: is about the records the load check admits; which
  of the longest ones a run can reach is not decided. A quarantined record is
  counted with its two flags even if it was never attempted, and so lacks them.
- HandoffLedger.HandoffLedger.CommitOutcome: a commit, poll or stop of an unknown
  correlation ID is a KeyError in the code and the unknown-ID error here; no
  transaction removes a record, so neither occurs.
- HandoffOverflow.FullLedgerRefusesCommit: its ledger passes the load check and the
  stronger invariant, but no run of the program is shown to reach it.
- CodexHome.ResolveCodexHome: storage, database and lock probes are inputs; the
  order of candidates is the caller's.
- Admission.ControlAdmission.LoadReplay: a file edited by hand to hold fractions
  or other spacing is not modelled; a lone surrogate cannot occur in a ticket ID.
- AdmissionRuns.SingleUseIffReplayFile: the replay file is kept or lost as a
  whole; an older copy put back in its place is outside the model.
- WakeChain.AnyWindowIsBounded: is about one fixed limit; the private state file's
  inode checks and short writes are not modelled.
- Discovery.ResolveTarget: the Unicode tables of decimal digits and case folding
  are inputs.
- ReplyUri.ParseReplyAddress: Python releases disagree on which Windows device
  paths and which drives that are no letter are absolute; one reading is modelled.
- ReplyUri.ReplyAddress: detecting the sender's own identity and host is an input.
- PrivateStore.MutationRefinesSwap: validation of a route or recipient beyond
  names, binding IDs and labels is one boolean of the entry.
- Updater.UpdateIsAllOrNothing: the transfer and its digest come before the lock
  and are not modelled.
- Updater.OlderIsAnOrder: parsing a release string is a function passed in.
- The wake-chain context and message marker, the Antigravity bridge, listing,
  explanation, notices, command-line parsing and the MCP tools: wide but shallow.
