# Activation gates: a verified model

This project models the evidence and safety machinery of a KIS trading application and proves
what its verdicts mean. `dafny verify dfyconfig.toml` checks everything.

- **Evidence journal** (`EvidenceJournal`, `JournalRace`): the hash-chained, append-only log with
  its audit and the cached tail that lets an append skip a full audit. Many journal objects may
  write one file, with a common lock and without.
- **Gate 4** (`Gate4Events`, `Gate4Runs`, `Gate4Race`, `Gate4Collector`, `Gate4Evidence`,
  `Gate4Reducer`, `EvidenceRules`, `DeltaManifest`, `Gate4Report`, `Gate4Verdict`,
  `Gate4Finalize`): which events the guards let into the journal, one call after another and
  racing, the reducer that turns the trace into evidence, and the validator that turns evidence
  into a verdict, for a full qualification and for a requalification. The main results are end to
  end: PASSED if and only if the journal and the files show a list of facts, each stated in the
  fields of events and files; and bad evidence cannot wash out, whatever is recorded later.
- **Token cache** (`TokenCache`): double-checked locking over a lock file, as interleaved steps
  of any number of clients.
- **Gate-3 hand-off** (`ShadowObserver`): caller, bounded queue, worker thread and `finish`, as
  interleaved steps with failures, a dying worker and a join that times out.
- **WebSocket session** (`WebSocketSession`, `WebSocketLoops`): desired subscriptions, replay,
  announcements and back-off of the reconnect loop, and the loops that start and stop leave alive.
- **Gate 1** (`Gate1Contract`, `Gate1Observation`) and **Gate 2** (`Gate2Runner`,
  `Gate2Operations`): the safety monitor over mutations at the broker boundary with the greedy
  matching behind it, and the disconnect ledger, silent-stale probe, continuity counters and
  protocol operations.
- **Carry-forward** (`Requalification`, `CarryForward`, `CarryVerdict`): path classification, the
  manifest of an exact Git difference, and the report it carries to a new commit.
- **Loops that must be complete or refuse** (`Pagination`, `Holdings`, `RefreshPlan`,
  `WireFrames`).

`Common`, `Ordering` and `Text` hold shared datatypes, sorting, and ASCII string operations.

Classes in the source are classes here, and loops are loops, proved against specification
functions or predicates; protocols between threads or processes are transition systems over
values. The file system, clocks, Git, sockets, digests and the market-data service are
parameters or environment steps. A digest is an abstract function; that it is injective, or
prints 64 hexadecimal digits, is a hypothesis of the lemmas that need it.

What the proofs brought to light, each with the exact condition under which the code does what
one expects:

- `append` checks neither that an event identifier is new nor that the encoded row is one line: a
  U+2028 in a payload cuts the row in two, the journal never passes again, and the object that
  wrote it goes on appending. Both conditions together are exactly what keeps a passing journal
  passing (`AppendKeepsSoundIff`, `InterleavingSoundIff`, `CutRowIsNotNoticed`).
- Journal objects of different processes share no lock; a row written after somebody else wrote
  breaks the chain (`PassesIffCleanWrites`).
- `observe_gate4_event` compares the event type as given, and the journal normalises it after
  that, so `session_started` opens a second session on an open date, which can then never be
  ended (`LowerCaseStart`, `OneStartIffNoneSmuggled`, `TwoStartsNeverEnd`).
- Guard and append hold no common lock: two ends that pass the guard together make a closed
  session count as closed no more, and two starts that do open a date that can never be ended
  (`RacingEndsDropASession`, `EndsLastIffCleanEnds`, `RacingStartsNeverEnd`,
  `OneStartIffCleanStarts`).
- The collector's `every_buy_below_notional_cap` can be true for an entry without a cap; the
  report's envelope check is exact (`FallbackFlagIsWeaker`, `OwnCapsIffFlagAndCaps`,
  `EnvelopeCheckIffOwnCaps`).
- A requalification that asks for no session still needs a closed one (`SessionFlagsIff`, `PassedIff`).
- One lock holder inside for more than the stale threshold lets another client in beside it, at
  once; without one, exclusion holds (`CollidesIffLate`, `ExclusionIffPrompt`, `MutualExclusion`).
  One crashed holder even lets two prompt clients in (`CrashedHolderBreaksExclusion`).
- A WebSocket client stopped while connected announces no disconnect, so after a new start it
  can announce one connection over another; within one run it cannot
  (`RestartWithoutDisconnect`, `SeparatedIff`, `SoundLogMeans`).
- `stop` gives up on its thread after five seconds, and a loop asleep in its back-off then lives on
  beside the loop of the next `start`; both may connect, even under one generation. This happens
  if and only if `start` is called while such a loop lives (`OneAliveIffNoOverlap`,
  `OverlapConnectsTwice`, `OverlapSharesGeneration`).
- `normalized_changed_paths` is not idempotent, and a manifest over paths that are not fixed
  points is refused (`NormalisingIsNotIdempotent`, `RoundTrip`).
- The order page loop does not upper-case the continuation header, so a lower-case header
  truncates its list where the balance loop goes on; and it does not trim cursors, so it follows
  a blank one where the balance loop stops (`LowerCaseHeader`, `BlankCursor`, `AgreeIff`,
  `OrderTakesPrefix`).
- A review whose reference repeats the digest prefix is refused, though tidying it would leave a
  reference that passes (`ReviewTidied`).
- A realtime envelope is accepted when its first field merely begins with 0 or 1
  (`ParsedIffEnvelope`).

## Model

| member | source | states |
|---|---|---|
| EvidenceJournal.ScanLines | activation_gates/journal.py:198-247 | the audit loop counts exactly the parse, identity, chain, duplicate and unknown-kind faults of the file, and the rows of each kind |
| EvidenceJournal.PassedIffSound | activation_gates/journal.py:72-79 | an audit passes if and only if every line parses and the rows form an unbroken chain with matching digests, allowed kinds and distinct identifiers |
| EvidenceJournal.TailCommitsToHistory | activation_gates/journal.py:38-41 | with an injective digest that is never the zero digest, two passing journals with the same tail are equal row for row |
| EvidenceJournal.FastPathEqualsReaudit | activation_gates/journal.py:126-140 | on a file that only grows, the cached tail is what a full re-audit would return, and is used only where that re-audit would pass |
| EvidenceJournal.AppendKeepsSoundIff | activation_gates/journal.py:142-183 | an append to a passing journal links to the true last row, and the journal still passes if and only if the event identifier was not used before and the encoded row holds no raw line separator; append itself checks neither |
| EvidenceJournal.CacheStaysFaithfulIff | activation_gates/journal.py:126-140 | under the same condition, and no other, the cached tail after an append is one that a re-audit would return |
| EvidenceJournal.CutRowIsNotNoticed | activation_gates/journal.py:208-208 | after a row that splitlines cuts the journal fails from then on, and the same object still appends on its cached tail |
| EvidenceJournal.OneLineIff | activation_gates/journal.py:28-35 | a row is read back as one line if and only if its encoded text holds none of U+0085, U+2028 and U+2029 |
| EvidenceJournal.CutRowBegins | activation_gates/journal.py:208-208 | where a row is cut, a reader first finds its text up to the first separator, which does not parse |
| EvidenceJournal.PiecesRead | activation_gates/journal.py:212-220 | of what follows, a piece of white space is passed over, and any other does not parse |
| EvidenceJournal.CorruptionNeverHeals | activation_gates/journal.py:249-256 | nothing appended to a failing journal makes it pass |
| EvidenceJournal.FailedAuditBlocksAppend | activation_gates/journal.py:126-140 | after a failed audit the next append on the unchanged file is refused and writes nothing |
| EvidenceJournal.InterleavingSoundIff | activation_gates/journal.py:142-183 | for any number of journal objects and any interleaving of appends and audits, the file passes if and only if every accepted request had a new identifier and a row of one line; then every cache is faithful, the old lines stay, and what is added is the row of each accepted request, in order, linked to the row before it |
| JournalRace.PassesIffCleanWrites | activation_gates/journal.py:158-183 | with reading the tail and writing the row as two steps of objects that share no lock: the file passes if and only if each row was written before any other object wrote after its tail was read, under a new identifier and in one line |
| JournalRace.StaleRowBreaks | activation_gates/journal.py:209-224 | a row linked to a tail that is no longer the last one breaks the chain, under an injective digest that is never the zero digest |
| EvidenceJournal.AppendOnlyEvidenceJournal.ReadAll | activation_gates/journal.py:185-192 | the rows of the file in order, or an error exactly where some line does not parse |
| EvidenceJournal.AppendOnlyEvidenceJournal.Audit | activation_gates/journal.py:198-256 | the counts of the audit, and a cache that is dropped exactly when the audit fails |
| EvidenceJournal.AppendOnlyEvidenceJournal.ValidatedAppendTail | activation_gates/journal.py:126-140 | the cached tail where the file identity is unchanged, the re-audited tail elsewhere, a refusal exactly where that audit fails |
| EvidenceJournal.AppendOnlyEvidenceJournal.Append | activation_gates/journal.py:142-183 | refines the append step: one row at the end, linked to the true last row, or a refusal that leaves the file as it was |
| Gate4Events.Gate4EvidenceCollector.Record | gate4/collector.py:45-46 | appends the event, under its type stripped and in upper case, exactly where the journal accepts it; readers find it exactly where its row is one line, and find an unreadable journal elsewhere |
| Gate4Events.Gate4EvidenceCollector.Prepare | gate4/runner.py:103-123 | records the verified capability and nothing else |
| Gate4Events.Gate4EvidenceCollector.StartSession | gate4/runner.py:147-192 | a disarmed, supervised start is recorded exactly when the checks pass, a capability was recorded and the date has no event yet |
| Gate4Events.Gate4EvidenceCollector.Observe | gate4/runtime_observer.py:55-77 | an event, dated today where it has no date, is recorded exactly when its date has one start and no end and its text, as given, is not SESSION_STARTED |
| Gate4Events.ReachableSessionShape | gate4/runtime_observer.py:68-77 | in every reachable trace a dated event has a supervised, disarmed start at or before it, the end of a date follows everything else of it, a date has at most two starts, and an ended one has one |
| Gate4Events.EndedOnce | gate4/runner.py:158-187 | every reachable trace has at most one end per date, and a date with an end has exactly one start |
| Gate4Events.CapabilityComesFirst | gate4/runner.py:103-187 | in every reachable trace a dated event follows a verified capability record |
| Gate4Events.OpenDateMeans | gate4/runtime_observer.py:68-77 | the guard counts a date as open if and only if it has exactly one start and no end |
| Gate4Events.NamesOfKinds | gate4/collector.py:13-29 | each event kind has one name, and no other name is that kind |
| Gate4Events.TwoStartsNeverEnd | gate4/runtime_observer.py:68-77 | a date with two starts takes no further event, so it can never be ended |
| Gate4Runs.Perform | gate4/runtime_observer.py:55-77 | each call of a writer records exactly what the run function says, given the verdict of the journal |
| Gate4Runs.RunIsReachable | gate4/runtime_observer.py:55-77 | every sequence of writer calls leaves a reachable trace |
| Gate4Runs.StartRecordedIff | gate4/runner.py:147-192 | a start is recorded if and only if its checks passed, a verified capability was recorded, its date is new and the journal takes it |
| Gate4Runs.SecondStart | gate4/runtime_observer.py:70-71 | one call gives a date a second start if and only if it observes, on an open date, another text that normalises to SESSION_STARTED |
| Gate4Runs.OneStartIffNoneSmuggled | gate4/runtime_observer.py:68-77 | in every run each date has at most one start if and only if no call did that |
| Gate4Runs.OneStartEachMeans | gate4/runtime_observer.py:68-72 | then the count of starts the observing guard takes is at most one for every date |
| Gate4Runs.LowerCaseStart | activation_gates/journal.py:151-151 | a run in which the text session_started opens a second session, which no continuation can end |
| Gate4Race.EndsLastIffCleanEnds | gate4/runtime_observer.py:68-77 | with guard and append as two steps of any number of writers: each end is the last event of its date if and only if no end was appended while another guarded event of its date was waiting |
| Gate4Race.RacingEndsDropASession | gate4/runtime_observer.py:68-77 | two ends that pass the guard together: the first append closes the session, the second undoes it |
| Gate4Race.OneStartIffCleanStarts | gate4/runner.py:158-187 | with guard and append as two steps: each date keeps at most one start if and only if no start passed its guard on a date that had one, and none was appended while another start of its date was waiting |
| Gate4Race.RacingStartsNeverEnd | gate4/runner.py:158-187 | two starts of one date that pass their guards together are both recorded, and the date can never be ended |
| Gate4Events.ClosedDateIsImmutable | gate4/runtime_observer.py:68-77 | a date whose session has ended never receives another event |
| Gate4Collector.FindSession | gate4/collector.py:72-84 | finds the one closed supervised session of a date with exactly its window of events, or there is none |
| Gate4Collector.ReduceSession | gate4/collector.py:85-133 | decides for one session: started disarmed, armed in the UI after readiness, lifecycle agreement, entries after the first arm, final reconciliation and clean shutdown |
| Gate4Reducer.CollectSessions | gate4/collector.py:58-133 | the loop over dates yields the closed dates in order, every qualifying event in order, and each condition exactly if all closed sessions meet it |
| Gate4Reducer.CountRepeated | gate4/collector.py:294-303 | the loop with its seen-set computes the dispatched mutations minus their distinct non-blank identities |
| Gate4Reducer.ReduceCounters | gate4/collector.py:291-315 | the four counters that must be zero, as cardinalities over qualifying events |
| Gate4Reducer.EntryOutcomes | gate4/collector.py:193-234 | terminal entries: broker-confirmed strategy entries after every dispatch of their identity |
| Gate4Reducer.CancelLifecycles | gate4/collector.py:200-252 | cancels confirmed after every dispatch of their identity |
| Gate4Reducer.ProtectedPositions | gate4/collector.py:253-271 | protections of a symbol after a terminal entry of that symbol |
| Gate4Reducer.DisarmProbed | gate4/collector.py:272-284 | a blocked probe after a disarm of the same session date |
| Gate4Reducer.ReduceCaps | gate4/collector.py:174-192 | per-entry envelopes in order, the smallest cap where all entries have one, and the fall-back on session caps elsewhere |
| Gate4Reducer.ReduceOutcomes | gate4/collector.py:193-290 | the outcome counts and flags of the evidence |
| Gate4Reducer.ReduceSessions | gate4/collector.py:344-376 | the session flags of the evidence, false where there is no session, entry or comparison |
| Gate4Reducer.ReduceRuntime | gate4/collector.py:155-173 | approved and observed symbols, single ownership, live mode and the latest capability |
| Gate4Reducer.LatestCapability | gate4/collector.py:155-162 | the last capability record of the whole trace |
| Gate4Reducer.BuildEvidence | gate4/collector.py:48-405 | audits first, derives nothing from a failing journal, and otherwise derives every field from the recorded trace |
| Gate4Evidence.ClosedSessionStays | gate4/runtime_observer.py:68-77 | a closed session of a reachable trace is closed with the same window in every extension |
| Gate4Evidence.ClosedSessionStaysIff | gate4/collector.py:72-84 | whoever appends: a closed session stays closed if and only if its date gets no further start and no further end |
| Gate4Evidence.RepeatedNeverDecreases | gate4/collector.py:294-303 | the number of repeated mutations never decreases along reachable extensions |
| Gate4Evidence.CountersNeverDecrease | gate4/collector.py:291-315 | retry, duplicate/unowned, ambiguous and mismatch counters never decrease along reachable extensions |
| Gate4Evidence.SessionVerdictStays | gate4/collector.py:72-133 | the verdict on a closed session is the same in every reachable extension |
| Gate4Evidence.SessionFlagsNeverRecover | gate4/collector.py:344-376 | a session condition falsified by a closed session stays false, and no closed date is ever dropped |
| Gate4Evidence.WindowDropsNothing | gate4/collector.py:80-84 | in a reachable trace the window of an ended session contains every event of its date |
| EvidenceRules.ValidateSessionDates | activation_gates/evidence.py:73-128 | no violation if and only if the dates are canonical trading days, strictly increasing, exactly or at least as many as wanted, and without a gap where that is wanted |
| EvidenceRules.ReviewTidied | activation_gates/evidence.py:180-205 | the verdict on a review does not depend on letter case, outer white space or the digest prefix; tidying changes it exactly where the reference carries the prefix twice |
| DeltaManifest.ValidateImpactManifest | activation_gates/requalification.py:171-315 | no violation if and only if baseline, digests, commits, paths, declared impact and sessions, assertions and review of the change-impact manifest are all accepted; the impact and sessions returned are the computed ones |
| DeltaManifest.SessionsAskedFor | activation_gates/requalification.py:141-168 | over normal paths a manifest asks for three sessions if and only if some path is neither tooling nor a static asset nor reviewed code of a user interface, and for one if and only if every path is tooling |
| Gate4Report.ValidateDelta | gate4/reporting.py:39-96 | no violation if and only if requalification inputs are absent, or the manifest and its baseline are accepted; sessions and carried coverage follow from the computed impact |
| Gate4Report.CheckEnvelope | gate4/reporting.py:160-208 | the loop decides the per-entry envelope check, with the minimum cap and maximum notional as declared |
| Gate4Report.BuildReport | gate4/reporting.py:25-291 | PASSED if and only if there is no violation, and if and only if evidence, upstream report, delta inputs and review are accepted; `Gate4Verdict.PassedIff` says what that is in fields |
| Gate4Report.EnvelopeCheckIffOwnCaps | gate4/reporting.py:184-208 | on collector evidence the envelope check holds if and only if every entry has 0 < notional <= its own cap |
| Gate4Report.FallbackFlagIsWeaker | gate4/collector.py:355-363 | the collector flag is weaker: a concrete reachable trace whose entry has no cap of its own gets a true flag and still fails the envelope check |
| Gate4Report.OwnCapsIffFlagAndCaps | gate4/collector.py:355-363 | its exact strength: every entry keeps its own cap if and only if the flag is true and every entry has a cap |
| Gate4Report.NoRepetition | gate4/collector.py:294-303 | with a repetition count of zero every dispatched mutation has an identity and no two share one |
| Gate4Verdict.PassedIff | gate4/reporting.py:25-291 | the verdict from journal to report, in the fields of events and files: collector evidence is PASSED if and only if the files fit together and the trace shows the sessions, mutations, entries, runtimes, probe, alert, last verified capability and, unless carried, the trades that are asked for; in full and in delta mode |
| Gate4Verdict.SessionFlagsIff | gate4/collector.py:85-133 | the session flags are true if and only if there is a closed supervised session and every one started disarmed, was first armed by hand in the user interface after its runtime was active, compares its lifecycle and agrees, and ends cleanly after a last reconciliation that matches the broker |
| Gate4Verdict.DatesIff | gate4/reporting.py:137-144 | the session dates are accepted if and only if every closed session is on a trading day in canonical form, their text order is their order in time, and there are as many as asked for |
| Gate4Verdict.CountersIff | gate4/collector.py:291-315 | the four counters are zero if and only if every dispatched mutation names its order, is owned, neither duplicate nor retry, shares its command and order with no other one, and every ambiguous end is resolved |
| Gate4Verdict.EntriesIff | gate4/reporting.py:184-237 | the entry conditions hold if and only if every entry keeps its own cap, has an active card and a risk recheck, follows the manual arm of its session and names an approved symbol, and some entry names one; no entry at all is enough where coverage is carried |
| Gate4Verdict.TradesIff | gate4/collector.py:193-271 | the three outcome counts are positive if and only if in closed sessions the broker confirmed the end of a strategy entry after every submit of its order id, a position of that symbol was exited or protected later, and the broker confirmed a cancel after every cancel of its order id |
| Gate4Verdict.ProbeAndAlertIff | gate4/collector.py:272-290 | a probe was blocked, before it reached the broker, after a disarm of its date; and an external alert was delivered |
| Gate4Verdict.RuntimeIff | gate4/collector.py:155-173 | single ownership and live mode are reported if and only if some runtime became active, and each one had one owner, one lease and the controlled live mode |
| Gate4Verdict.FilesIff | gate4/reporting.py:32-96 | upstream, baseline, manifest, digests, audit and reviews are accepted if and only if their fields fit together |
| Gate4Verdict.EachFieldCounts | gate4/reporting.py:97-262 | on any evidence: each single flag, counter, count and digest that does not hold excludes PASSED |
| Gate4Report.SpoiledNeverPasses | gate4/reporting.py:97-135 | once a reachable trace holds bad evidence, no extension of it is ever accepted, in full or in delta mode |
| Gate4Finalize.Finalize | gate4/runner.py:195-289 | collector and report together: on a sound journal a report is made if and only if the release is exact, the inputs are bound to Git and the last capability is the one of the release; it is PASSED if and only if the files fit and the recorded trace shows everything asked for, and then the journal file is sound |
| Gate4Finalize.ReadyIff | gate4/runner.py:195-261 | the release is exact and bound if and only if it is clean, is the commit of a PASSED upstream report, a carried one fits, and a requalification starts at an ancestor, lists the very paths Git prints and is bound file by file where it declares a presentation change |
| Gate4Finalize.GitDecidesSessions | gate4/runner.py:226-245 | for a requalification bound to Git, the paths Git prints decide the sessions: three if and only if one of them is neither tooling nor a static asset nor reviewed code of a user interface, one if and only if all are tooling |
| Gate4Finalize.BoundPathIsReviewed | gate4/runner.py:246-261 | a bound presentation change has, for every path Git prints, a file review with the kind of the path and the digests of source, target and patch that Git shows |
| TokenCache.MutualExclusion | src/api/kis_account_snapshot_dual.py:172-215 | while no client is inside for longer than the stale threshold, at most one is inside the lock, and the lock file is its own |
| TokenCache.EachTokenSupersededOnce | src/api/kis_account_snapshot_dual.py:364-395 | in every such run each cached token is superseded by at most one issued token, each request is made for an empty cache or by a forced refresh of the very token cached, and the cache holds the latest token |
| TokenCache.RejectedTokenIsReplaced | src/api/kis_account_snapshot_dual.py:364-395 | in every run, however long it takes: a client that forces a refresh of the token it holds never hands that token back during the call, and requests a new one where the cache still holds it |
| TokenCache.RecheckDecides | src/api/kis_account_snapshot_dual.py:384-395 | inside the lock a request is made if and only if the cache is empty or holds the very token a forced refresh replaces |
| TokenCache.JudgeDecides | src/api/kis_account_snapshot_dual.py:186-211 | a waiter deletes a lock file older than 180 seconds, gives up 90 seconds after its call, and tries again otherwise |
| TokenCache.BurstIssuesOneToken | src/api/kis_account_snapshot_dual.py:364-395 | fresh clients that each call once on an empty cache, forced or not, cause at most one issue, and all return its token |
| TokenCache.CollidesIffLate | src/api/kis_account_snapshot_dual.py:172-215 | where the lock file belongs to the client inside, two of two or more clients can be inside before the clock moves again if and only if somebody inside is late |
| TokenCache.ExclusionIffPrompt | src/api/kis_account_snapshot_dual.py:172-215 | in every run that was prompt so far, exclusion can be broken at once if and only if its last state is not prompt |
| TokenCache.CrashedHolderBreaksExclusion | src/api/kis_account_snapshot_dual.py:197-215 | one crashed holder is enough: a run in which two prompt clients end up inside at once |
| TokenCache.LockKept | src/api/kis_account_snapshot_dual.py:172-215 | each step of a prompt state keeps the lock file and its creator together |
| TokenCache.LedgerKept | src/api/kis_account_snapshot_dual.py:397-432 | each step keeps the chain of issued tokens, their justification and the cache |
| ShadowObserver.NoSilentQuoteLoss | gate3/runner.py:441-504 | if the session ended without a runtime error, every non-empty batch offered was evaluated once, in order, and the counters agree |
| ShadowObserver.LossIsRejected | gate3/reporting.py:106-125 | a dropped, failed or lost batch keeps the session from passing, at its end and ever after |
| ShadowObserver.NothingLeft | gate3/runner.py:496-504 | equal counters at the join mean nothing is in hand and nothing is queued |
| ShadowObserver.PutDecides | gate3/runner.py:472-484 | a batch is queued where fewer than 4096 wait, and is a recorded failure elsewhere |
| ShadowObserver.SoundStep | gate3/runner.py:441-574 | every step of caller or worker keeps the accounting of offered, queued, evaluated and counted batches, and errors only grow |
| ShadowObserver.SoundThroughout | gate3/runner.py:441-574 | the accounting holds in every state of every run |
| ShadowObserver.CleanRunPasses | gate3/runner.py:506-574 | the metrics are satisfiable: a run that offers and evaluates a batch passes |
| WebSocketSession.KisWebSocketClient.constructor | src/api/kis_websocket.py:253-293 | clamped delays and an empty, disconnected client |
| WebSocketSession.KisWebSocketClient.DoSubscribe | src/api/kis_websocket.py:314-322 | the merged desired map, and a message for each new key while connected |
| WebSocketSession.MergedMeans | src/api/kis_websocket.py:314-322 | exactly the given keys are added, the last details given win, the rest is unchanged |
| WebSocketSession.AdditionsMean | src/api/kis_websocket.py:316-321 | one SUBSCRIBE message per new key |
| WebSocketSession.KisWebSocketClient.DoUnsubscribe | src/api/kis_websocket.py:324-331 | exactly the given keys are dropped, with a message for each that was there |
| WebSocketSession.RemovalsMean | src/api/kis_websocket.py:326-330 | one UNSUBSCRIBE message per key that was there |
| WebSocketSession.KisWebSocketClient.DoForget | src/api/kis_websocket.py:333-345 | the given keys are dropped without a message |
| WebSocketSession.KisWebSocketClient.DesiredSubscriptions | src/api/kis_websocket.py:310-312 | a snapshot with every desired subscription once, in the order of its key |
| WebSocketSession.KisWebSocketClient.SendAll | src/api/kis_websocket.py:375-398 | every subscription sent with the current generation, whatever other tasks send in between, unless the socket breaks; nothing is announced |
| WebSocketSession.KisWebSocketClient.Replay | src/api/kis_websocket.py:515-526 | a complete replay covers everything desired at its start |
| WebSocketSession.KisWebSocketClient.Open | src/api/kis_websocket.py:499-526 | a new generation, announced exactly after its complete replay |
| WebSocketSession.KisWebSocketClient.Fail | src/api/kis_websocket.py:547-560 | authorization failures end the loop, a stop ends it silently, anything else is announced and backed off; a connection stays announced exactly where the stop is silent |
| WebSocketSession.KisWebSocketClient.Turn | src/api/kis_websocket.py:489-563 | one turn of the loop: generation, announcement and whether it goes on; it leaves a connection announced if and only if it is stopped while connected |
| WebSocketSession.KisWebSocketClient.RunForever | src/api/kis_websocket.py:486-564 | every run keeps the log sound, counts one generation for each connection made, and ends without a disconnect if and only if its last turn is stopped while connected |
| WebSocketSession.AfterRunMeans | src/api/kis_websocket.py:486-564 | a run announces a connection over another if and only if one was left announced and the run connects before anything else |
| WebSocketSession.SeparatedIff | src/api/kis_websocket.py:486-564 | for every sequence of runs that do not overlap: any two connected announcements have a disconnected one between them if and only if no run connects first after a run stopped while connected, with only silent runs between |
| WebSocketSession.KisWebSocketClient.RunAgainAndAgain | src/api/kis_websocket.py:486-564 | the same of the log of a client whose loop has ended each time it is started again |
| WebSocketLoops.OneAliveIffNoOverlap | src/api/kis_websocket.py:400-480 | with start, stop and every loop as steps: at most one loop is ever alive if and only if the client is never started while a loop lives that an earlier stop gave up on |
| WebSocketLoops.SeparatedIffNoLoudRestart | src/api/kis_websocket.py:400-564 | in every history without such a start the log is sound, and any two connects have a disconnect between them if and only if no loop connects first after one stopped while connected, with only silent loops between |
| WebSocketLoops.OverlapConnectsTwice | src/api/kis_websocket.py:468-480 | a loop asleep in its back-off outlives its stop and connects beside the next one: two connects without a disconnect, although no loop was stopped while connected |
| WebSocketLoops.OverlapSharesGeneration | src/api/kis_websocket.py:501-528 | two overlapping loops announce the same generation, so the log is not sound |
| WebSocketSession.AnnouncedMeans | src/api/kis_websocket.py:526-537 | the running summary of a log says exactly whether each two connects have a disconnect between them, and whether the last connect has one after it |
| WebSocketSession.RestartWithoutDisconnect | src/api/kis_websocket.py:529-537 | a sound log in which two connects follow each other without a disconnect |
| WebSocketSession.SoundLogMeans | src/api/kis_websocket.py:486-564 | a connected announcement follows the SUBSCRIBE of everything its replay wanted; within a run two of them have a disconnect between them; generations increase; each delay is the doubled one for the back-offs so far, plus at most the jitter |
| WebSocketSession.BaseInRange | src/api/kis_websocket.py:556-560 | the doubled delay, capped, lies between the initial and the maximum delay |
| WebSocketSession.BaseDoubles | src/api/kis_websocket.py:556-560 | it starts at the initial delay and doubles up to the maximum |
| WebSocketSession.FailuresMeans | src/api/kis_websocket.py:556-560 | the doublings are the back-offs since the last start or replay |
| Gate1Contract.EvaluateMutations | gate1/contract.py:98-142 | the loop over mutations finds each per-mutation violation as often as it occurs, and counts submits per client id and per logical operation |
| Gate1Contract.Duplicates | gate1/contract.py:144-166 | one finding for each identifier or operation counted more than once |
| Gate1Contract.ForgottenOrders | gate1/contract.py:168-178 | one finding for each open broker order nobody remembers |
| Gate1Contract.UncoveredHoldings | gate1/contract.py:180-195 | one finding for each holding the cards fall short of |
| Gate1Contract.Evaluate | gate1/contract.py:93-199 | the sorted output contains every finding with its exact multiplicity |
| Gate1Contract.EmptyIffSixProperties | gate1/contract.py:34-41 | the output is empty if and only if the six safety properties hold |
| Gate1Contract.OrderDoesNotMatter | gate1/contract.py:197-199 | the output is the same for every permutation of the mutations |
| Gate1Contract.ViolationsNeverClear | gate1/contract.py:93-199 | an unsafe history stays unsafe however it is continued |
| Gate1Observation.TakeFirst | gate1/observation.py:134-139 | the first suitable unused candidate is taken, and none only where every suitable one is used |
| Gate1Observation.BuildSubmits | gate1/observation.py:133-165 | each submit call is matched greedily with an order row and judged by its command and the evidence of that call |
| Gate1Observation.ByBrokerId | gate1/observation.py:167-169 | the last row with a broker id stands for it |
| Gate1Observation.BuildCancels | gate1/observation.py:167-196 | each cancel call is matched with a cancel command for its order, each used once |
| Gate1Observation.BuildObservation | gate1/observation.py:107-232 | the whole observation from durable rows and broker records |
| Gate1Observation.CleanVerdictIff | gate1/observation.py:107-232 | builder and monitor stay silent if and only if every call was made under the device, token and epoch its command was issued under, no order went out twice, new entries were made on fresh data, each cancelled order was one the application may cancel, every open order is remembered and no holding exceeds its last card |
| Gate1Observation.CleanVerdictMeans | gate1/observation.py:133-196 | no violation implies an injective map from submit calls to order rows with the fields of the call, each with a SUBMIT command of the device, token and epoch sampled at the call, and an injective map from cancel calls to cancel commands of that lease on exactly owned orders |
| Gate1Observation.LeaseFindingsIff | gate1/observation.py:63-76 | no mutation after lease loss is reported if and only if every call has its command, with the device, token and epoch of the lease sampled at the call |
| Gate1Observation.RowsInOrder | gate1/observation.py:133-139 | a row that fits a call and comes before the one it got, or any row that fits a call without one, went to an earlier call |
| Gate1Observation.CommandsInOrder | gate1/observation.py:170-186 | the same for cancel calls and the cancel commands for their order |
| Gate1Observation.CheckSystem | gate1/contract.py:93-199 | builder and monitor together, with both statements above as their contract |
| Gate2Runner.LiveGate2Runner.OnSession | gate2/reporting.py:1043-1073 | a connect resolves the latest unresolved disconnect only; a disconnect is INJECTED exactly while one is expected |
| Gate2Runner.LiveGate2Runner.InjectDisconnect | gate2/reporting.py:1075-1086 | one more expected and one more requested disconnect |
| Gate2Runner.LiveGate2Runner.StartSilentStaleProbe | gate2/reporting.py:1088-1126 | at most one probe, started exactly on a connected, received and ready symbol |
| Gate2Runner.LiveGate2Runner.AdvanceSilentProbe | gate2/reporting.py:1138-1172 | the phase only advances, detection and recovery match it, and the detection time is measured from the older of the two time stamps |
| Gate2Runner.LiveGate2Runner.Reack | gate2/reporting.py:1228-1241 | every reconnected entry is acknowledged again exactly when all requested subscriptions are, with its recovery time |
| Gate2Runner.LiveGate2Runner.Sample | gate2/reporting.py:1174-1305 | a sample moves the probe by the stale set, acknowledges entries and registrations, counts an anomaly if and only if the registrations are inconsistent, and counts as unexpected exactly when it is counted, not ready, and neither a disconnect is open nor the probe under way |
| Gate2Runner.LiveGate2Runner.CountAnomalies | gate2/reporting.py:1174-1207 | no anomaly is counted if and only if the registrations balance, stay within the capacity, and are exactly those acknowledged |
| Gate2Runner.LiveGate2Runner.OnProtocolOperation | gate2/reporting.py:1017-1041 | the registration moves to the state of the operation, and an anomaly is counted and noted if and only if the operation does not fit its state |
| Gate2Operations.ActiveMeans | gate2/reporting.py:1017-1041 | the recorded state of a registration says whether a SUBSCRIBE or an acknowledgement opened it that no UNSUBSCRIBE has closed since |
| Gate2Operations.NoMisfitIffAlternates | gate2/reporting.py:1017-1041 | no operation misfits if and only if every SUBSCRIBE finds its registration closed, every UNSUBSCRIBE finds it open, and nothing else is sent |
| Gate2Runner.NoAnomalyMeans | gate2/reporting.py:602-611 | a monitor without anomalies has seen the operations of each registration of each generation alternate |
| Gate2Runner.LiveGate2Runner.CountContinuity | gate2/reporting.py:1290-1305 | continuity is counted inside the session from the first ready sample on |
| Gate2Runner.LiveGate2Runner.Finalize | gate2/reporting.py:1330-1336 | unexpected or open entries plus the outstanding expected disconnects |
| Gate2Runner.LiveGate2Runner.DisconnectMetrics | gate2/reporting.py:526-548 | the two disconnect metrics of the report |
| Gate2Runner.LiveGate2Runner.CertifyDisconnects | gate2/reporting.py:1330-1336 | finalize and metrics pass if and only if there was an injected disconnect, none is outstanding, and every entry was injected, reconnected and acknowledged again within ten seconds |
| Gate2Runner.DisconnectMetricsMean | gate2/reporting.py:526-548 | the same for every ledger that satisfies the invariant outstanding + injected = requested, samples = re-acknowledged entries |
| Gate2Runner.LedgerAfterReack | gate2/reporting.py:1228-1241 | a re-acknowledgement keeps the ledger invariant |
| Gate2Runner.ContinuityMinimum | gate2/reporting.py:346-360 | the minimum is met if and only if there are samples and at most one in two thousand is unexpected |
| Gate2Runner.ContinuityOfAnyCounts | gate2/reporting.py:346-360 | negative counts are read as zero, and more unexpected samples than samples as all of them |
| Requalification.NormalizedPathsMeans | activation_gates/requalification.py:81-86 | the result lists the usable normal forms, sorted, each once |
| Requalification.UsableMeans | activation_gates/requalification.py:86-86 | cut at its slashes, a usable path has no part that leads up |
| Requalification.IdempotentIffSettled | activation_gates/requalification.py:81-86 | normalising twice is normalising once if and only if every path is usable, without back-slash, outer white space or leading ./ |
| Requalification.SettledIff | activation_gates/requalification.py:81-86 | these are exactly the usable paths that normalising leaves alone |
| Requalification.KindInText | activation_gates/requalification.py:22-78 | the kind of any path in its own text, prefixes and suffixes written out: the three lists exclude each other, and everything else is production or unknown |
| Requalification.SessionsInText | activation_gates/requalification.py:141-168 | any list of changed paths asks for one session if it is not empty and all tooling, for none if it is harmless otherwise, and for three in every other case |
| Requalification.AnyCase | activation_gates/requalification.py:162-168 | the number of sessions does not depend on the letter case of the impact |
| Requalification.UnreviewedCodeNeedsThree | activation_gates/requalification.py:110-168 | one changed path that ends in .html, .js, .py or .svg, is not tooling and not reviewed asks for three sessions |
| Requalification.SourceNeedsThree | activation_gates/requalification.py:125-168 | one changed path under src/ but under neither user interface is of unknown kind and asks for three sessions, reviewed or not |
| Requalification.ScriptNeedsThree | activation_gates/requalification.py:141-168 | a changed script of the web interface without review asks for three sessions |
| Requalification.ImpactFailsClosed | activation_gates/requalification.py:141-159 | on normal paths with all executable UI reviewed, the impact is unknown if and only if some path is of unknown kind, and evidence-only if and only if all are |
| Requalification.KindOfSettled | activation_gates/requalification.py:125-138 | the kind of a normal path is decided by the path itself |
| Requalification.NormalisingIsNotIdempotent | activation_gates/requalification.py:83-83 | only one leading ./ is removed: a concrete path that is not a fixed point |
| CarryForward.CollectedIsSound | activation_gates/carryforward.py:90-176 | Git evidence lists its paths sorted, each with its own change and kind |
| CarryForward.ValidateTargetGate1 | activation_gates/carryforward.py:291-331 | no violation if and only if Gate-1 passed on a clean exact commit on both Python versions |
| CarryForward.BuildManifest | activation_gates/carryforward.py:334-406 | a pending manifest of the exact difference exactly where reports and Git evidence are accepted |
| CarryForward.RecordReviews | activation_gates/carryforward.py:479-491 | reviews by path; a repeated path is exactly a violation |
| CarryForward.ValidateReviews | activation_gates/carryforward.py:476-518 | no violation if and only if every change has exactly one review and agrees with it |
| CarryForward.ValidateGit | activation_gates/carryforward.py:440-532 | no violation if and only if tree, difference, paths, reviews and reviewed paths match the Git objects |
| CarryForward.ValidateManifest | activation_gates/carryforward.py:409-585 | no violation if and only if the acceptance predicate of the whole manifest holds |
| CarryForward.ValidateGitBinding | activation_gates/carryforward.py:179-244 | no violation if and only if the manifest still names the exact Git change set |
| CarryForward.BuildCarriedReport | activation_gates/carryforward.py:588-626 | PASSED if and only if the manifest is accepted |
| CarryForward.ValidateCarriedReport | activation_gates/carryforward.py:629-695 | no violation if and only if the carried report is PASSED, complete and bound to an accepted manifest |
| CarryForward.RoundTrip | activation_gates/carryforward.py:334-585 | a manifest built from accepted reports, filled in, refreshed and approved validates if and only if every Git path is normal and none is of unknown kind |
| CarryForward.AcceptedManifestCarries | activation_gates/carryforward.py:588-695 | an accepted manifest gives a PASSED carried report that revalidates, and passes the separate Git binding |
| CarryForward.EditedManifestIsRejected | activation_gates/carryforward.py:568-584 | with an injective digest a review that binds one manifest approves no other, whatever digest the edited one records |
| CarryForward.CarryQualification | activation_gates/carryforward.py:334-626 | build, fill in, approve and carry: PASSED exactly under the condition of the round trip |
| CarryVerdict.AcceptedIffFits | activation_gates/carryforward.py:409-585 | a manifest is accepted if and only if, field by field, it names a PASSED source chain and a PASSED target, the tree, difference and paths Git prints, one review for each path with the kind and the digests Git shows, the reviewed paths, the impact of the paths, and an approval of its own digest |
| CarryVerdict.BindingIff | activation_gates/carryforward.py:179-244 | the separate Git binding holds if and only if difference, paths and file reviews are those of Git |
| CarryVerdict.CarriedIffFits | activation_gates/carryforward.py:629-695 | a carried report is accepted if and only if it is PASSED, complete, of the expected commit, and on a manifest that fits |
| Pagination.QueryBalancePages | src/api/kis_account_snapshot_dual.py:434-491 | returns exactly the full page chain where it has at most the limit of pages, and an error otherwise, never a part |
| Pagination.QueryOrderPages | src/api/kis_order.py:592-635 | the same for the order loop; its last return is unreachable |
| Pagination.OneChain | src/api/kis_account_snapshot_dual.py:434-491 | a server has at most one full chain |
| Pagination.OrderChainMeans | src/api/kis_order.py:592-635 | a full chain of the order loop, page by page: every header but the last reads F or M and comes with a cursor, and each page answers the cursors before it |
| Pagination.BalanceChainMeans | src/api/kis_account_snapshot_dual.py:434-491 | a full chain of the balance loop, page by page: the same with headers in either case and trimmed cursors |
| Pagination.AgreeIff | src/api/kis_order.py:592-635 | on every server: the list the order loop takes for complete is complete for the balance loop if and only if the balance loop sees no continuation in its last page and the trimmed cursors before it are there and answered alike |
| Pagination.TrimmedAgreeIff | src/api/kis_order.py:592-635 | where the cursors before the last page are trimmed, the header of the last page alone decides |
| Pagination.OrderTakesPrefix | src/api/kis_order.py:617-621 | of a complete list with trimmed cursors the order loop returns the prefix up to the first header it takes for the last |
| Pagination.OrderReadsAll | src/api/kis_order.py:617-621 | that prefix is the whole list if and only if the order loop reads a continuation in every page but the last |
| Pagination.LowerCaseHeader | src/api/kis_order.py:617-621 | a lower-case continuation header ends the list of the order loop and not the one of the balance loop |
| Pagination.BlankCursor | src/api/kis_order.py:622-631 | a cursor of white space leads the order loop on to a second page, where the balance loop has no complete list at all |
| Holdings.DedupeHoldings | src/api/kis_account_snapshot_dual.py:566-579 | one holding per symbol and name in order of first appearance, the latest of its most valuable rows |
| RefreshPlan.StaleSymbols | scripts/run_daily_refresh.py:60-69 | the symbols without current data, in order |
| RefreshPlan.StaleOfMeans | scripts/run_daily_refresh.py:60-69 | exactly the stale tickers, each once |
| RefreshPlan.EveryStaleSymbolCounted | scripts/run_daily_refresh.py:139-239 | targeted, excluded and deferred symbols partition the stale ones, with and without back-off of the reference symbol |
| RefreshPlan.CountsMean | scripts/run_daily_refresh.py:139-239 | the excluded count is that of the failing stale symbols left out, the deferred one that of the others left out |
| RefreshPlan.NormalizedMeans | scripts/run_daily_refresh.py:49-57 | the symbols that are not blank, without outer white space and in upper case |
| RefreshPlan.DedupeTwice | historical.py:234-253 | de-duplicating a part first changes nothing |
| RefreshPlan.SameDailyList | scripts/run_daily_refresh.py:49-57 | planner and worker build the same daily list in the same order |
| RefreshPlan.NoDailySymbolDropped | historical.py:486-505 | on an unchanged universe the worker takes over the daily plan unchanged |
| RefreshPlan.NoHourlySymbolDropped | historical.py:486-505 | and the hourly plan, whose symbols are the universe without the alignment proxies other than the reference |
| WireFrames.ParsePrinted | src/api/kis_websocket.py:191-215 | parsing a printed realtime frame gives the frame back, whatever its payload contains |
| WireFrames.ParsedIffEnvelope | src/api/kis_websocket.py:197-215 | accepted if and only if the text is an envelope with those fields; its first field need only begin with 0 or 1 |
| WireFrames.SignedIntegers | src/api/kis_websocket.py:205-205 | a sign may precede the digits of a record count |
| WireFrames.SurroundingSpace | src/api/kis_websocket.py:205-205 | white space around a record count does not matter |
| WireFrames.RecordsRejoin | scripts/capture_kis_ws_event_evidence.py:121-132 | accepted if and only if there are exactly count * width fields, and the records rejoined in column order are the payload |

## Left out

- JSON: rows and payloads are typed records; canonical encoding is part of the abstract digest, and malformed JSON is a garbage line.
- Payload fields: symbols, roles and flags are taken as already stripped and upper-cased where the source does so while reading; sets of approved symbols hold text only.
- Journal writes are atomic: a torn write within one append is not modelled, and the file status that a writer takes right after its row belongs to the write. Guard and append are one step in `Gate4Runs` and two in `Gate4Race`; reading the tail and writing the row are one step in `EvidenceJournal` and two in `JournalRace`.
- The journal file's digest and modification times are inputs; times never decide anything once sizes differ.
- Exceptions raised by the operating system at other points, keyboard interrupts between statements, and service queries that raise in the middle of a probe.
- Numbers are integers and reals: not-a-number, infinities, rounding and the displayed percentages are left out.
- Text is ASCII, except for the line separators in a journal row: other Unicode white space and casing, and underscores or other digits accepted by integer parsing, are left out.
- The texts of violation details; a violation is its property, or a finding that determines both texts.
- Gate4Finalize.Finalize: the ancestor test and the difference Git prints are parameters; the checks on where input and output files lie, and loading the capability manifest, are left out.
- EvidenceRules.ValidateSessionDates: date parsing and the NYSE calendar are parameters.
- TokenCache.MutualExclusion: a run begins without a lock file, so one left over from before is not modelled; wall clock and monotonic clock advance together, a lock file's modification time is its creation time, and failing to write the new lock file is not a step.
- TokenCache.BurstIssuesOneToken: cached tokens do not expire and cache writes succeed; a client without a cache path, which never locks, is left out.
- TokenCache.RejectedTokenIsReplaced: KIS never issues a token twice, and what a client holds at the start has been issued.
- ShadowObserver.NoSilentQuoteLoss: the other counters and the maximum queue depth of SESSION_ENDED are left out, and the clock conditions on a complete session, which may only refuse more, are left out.
- WebSocketLoops.OneAliveIffNoOverlap: start and stop are called by one thread, one after the other; an event loop that cannot be created, whose thread announces a disconnect, is left out.
- WebSocketSession.KisWebSocketClient.SendAll: no claim that a SUBSCRIBE is sent once only, since requests may overlap a replay.
- Gate1Contract.Evaluate: mutations are taken as their constructor normalises them.
- Gate2Runner.LiveGate2Runner.Sample: lag figures, frame counts and per-symbol health are copied fields and left out; a sample and a session callback are each one step, although the callback runs on the socket's thread and may fall between two entries of the sample's loop.
- CarryForward.BuildManifest: wall-clock text and the fields of reports that no check reads are opaque.
- RefreshPlan.NoDailySymbolDropped: symbols contain no line breaks, and the recheck just before download, which may only shorten the list, is left out.
- WireFrames.ParsePrinted: system frames, AES payloads and arrival times.
- The market calendar, request scheduler, realtime market-data service, execution gateway, promotion decision, decision oracle and Gate-5 report are not part of this model.
- Order status rows, order-number normalisation, profit queries and configuration loading: pure table look-ups that would only add easy members.
