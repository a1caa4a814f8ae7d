# Verified model of the control plane's adapters

A Dafny 4.11 model of the parts of `guardana/control` whose correctness is hard to see by
reading one function: the enforcement API's execution lifecycle (`adapters/enforce`), the
evidence exporter (`adapters/otel`), the MCP adapter's caches, counters and call path
(`adapters/mcp`), the signing of rosters and the comparison of findings
(`cmd/guardana-control`), shell quoting (`cmd/guardana-gateway`), and the withholding of key
text from what is printed (`internal/keytext`).

`dafny verify dfyconfig.toml` checks the whole project.

## How it is modelled

Each mutable type of the source is a class with the source's fields: `HandleTable`,
`FlightCount`, `Sender`, `Acknowledger`, `Manifest`, `ListCache`, `SessionCap`,
`AnswerWriter`, `Adapter`. Its methods run the source's loops and branches, and each ends in
a specification function of the old state.

Where the source is concurrent, the same specification functions are the steps of a
transition system. A method that holds a mutex throughout is one step; a call of the
pipeline, the collector, the file system or the MCP library is one step; a run is any
sequence of steps that can be taken one after the other (`IsRun`, `After`). The main results
are for every run. They are of two kinds: what every state of every run keeps, and what a
state is in terms of the run's own steps alone, so that no step function stands for itself:
who entered, what was asked, what the pipeline or the collector answered, and what each of
these led to. Clocks, random handles, pipeline answers, collector answers, clients,
crashes and failures are choices carried by the labels, so every result holds for all of them.

| area | files |
|---|---|
| handle table, latch | `Handles`, `HandleLemmas`, `HandleTable`, `Flights` |
| execution lifecycle | `Lifecycle`, `LifecycleSteps`, `LifecyclePlaces`, `LifecycleSlots`, `LifecycleTheorems`, `LifecycleHandings`, `LifecycleProgress` |
| its runs traced to their steps | `LifecycleEndings`, `LifecycleFates`, `LifecycleOrigins` |
| bounded table against full history | `SpentLog`, `HandleHistory`, `LifecycleHistory`, `LateReading` |
| socket | `SocketListen` |
| delivery and bisection | `Deliver`, `DeliveryLaws`, `Sender`, `Bisection` |
| exporter pipeline | `ExportRun`, `ExportTheorems`, `ExportLedger`, `ExportLoops` |
| surrogate scan | `SurrogateScan` |
| MCP manifest and tools/list | `Manifest`, `ListCache`, `ListCacheLaws`, `ListTools`, `ListOrigins`, `ListReuse` |
| MCP sessions and calls | `SessionCap`, `Calls`, `CallRuns` |
| roster, findings | `Roster`, `RosterOrigins`, `CompareFindings` |
| quoting and withholding | `ShellWord`, `Printable`, `Withholding` |

## Where the code and what is said of it differ

- **Acknowledged.** An acknowledgement can fail after it has moved the cursor: `Ack` sets the
  spool's position (`internal/spool/reader.go:214-216`) and then releases the segments before it,
  which can fail (`internal/spool/segment.go:156-180`). The exporter's `Acknowledged` then
  falls behind the cursor. `CounterLags` is a run in which it does. `AcknowledgedCounts`: in
  every run it equals the records passed if and only if no acknowledgement since the process
  began failed in that way.
- **Purging.** A take reads the clock before it takes the mutex
  (`adapters/enforce/ops.go:173-176`), so critical sections can run out of the order of their
  readings, and purging on expiry can then change an answer. `LateReading` is a run in which it
  does. `RunAnswers` states exactly when: a take disagrees with the full history if and only if
  its handle is of the caller's run, within its lifetime at the take's reading, spent, and
  either a sweep after the spend read at or past the expiry or maxSpent later spends not purged
  stood behind it. `RunForgets` says the first of these of the run's own steps, and that it
  alone decides while fewer than maxSpent spends followed. `AnswersInClockOrder`: with readings
  in order the first never happens.
- **Roster serials.** The comment on `rosterSign` says each signing needs a higher serial.
  That holds between consecutive writes of one root and one id (`SerialsRise`).
  `SerialRepeats` gives three signers one after another, the second of another root, by which
  a serial is written twice. `WritesExactly` is the condition under which a lone signer
  writes.
- **The socket lock.** `UnsafeWithoutLock` shows what the dial alone would allow: two
  listeners on one path.

## Model

| member | source | states |
|---|---|---|
| HandleTables.HandleTable.Reserve | adapters/enforce/handles.go:79-94 | a slot and a request key are taken together or not at all; a held key is a duplicate before the bound is looked at |
| HandleTables.HandleTable.Release | adapters/enforce/handles.go:97-101 | gives one slot and one key back, keeping the table's invariant |
| HandleTables.HandleTable.Free | adapters/enforce/handles.go:103-110 | the same under the mutex; a count that reaches zero leaves the map |
| HandleTables.HandleTable.Mint | adapters/enforce/handles.go:115-131 | a new entry is minting under an id not in use; refused and nothing changed once shut |
| HandleTables.HandleTable.Take | adapters/enforce/handles.go:137-149 | hands over an entry minting or open within its lifetime and run, and answers every other case with its code and ending |
| HandleTables.HandleTable.Settle | adapters/enforce/handles.go:154-166 | opens the minted entry, or hands it to its admit once the table is shut |
| HandleTables.HandleTable.Spend | adapters/enforce/handles.go:171-181 | records the ending, frees slot and key, and evicts the oldest spent handles past the bound |
| HandleTables.HandleTable.Expired | adapters/enforce/handles.go:185-209 | deletes expired spent handles, then marks closing the earliest-expiring open ones up to the limit, whatever order the map is read in |
| HandleTables.HandleTable.Shutdown | adapters/enforce/handles.go:213-225 | every open handle is taken once, and nothing is open from then on |
| HandleTables.HandleTable.OpenCount | adapters/enforce/handles.go:227-237 | the number of handles not spent |
| HandleTables.DeleteExpired | adapters/enforce/handles.go:188-195 | the purging loop keeps exactly the spent handles not expired, in order |
| HandleTables.SortByExpiry | adapters/enforce/handles.go:202-202 | the same handles ordered by expiry |
| HandleLemmas.SpendInv | adapters/enforce/handles.go:171-181 | a spend keeps the table well-formed, the spent queue duplicate-free, exactly the spent handles, and within its bound |
| HandleLemmas.SweepInv | adapters/enforce/handles.go:185-209 | a sweep keeps the same |
| HandleLemmas.ShutdownInv | adapters/enforce/handles.go:213-225 | a shutdown keeps the same and leaves nothing open |
| Flights.FlightCount.Enter | adapters/enforce/stats.go:53-61 | counts one in unless a stop began |
| Flights.FlightCount.Leave | adapters/enforce/stats.go:63-70 | counts one out and closes idle exactly when the last leaves after a stop began, never twice |
| Flights.FlightCount.Shut | adapters/enforce/stats.go:72-82 | begins a stop once; idle is closed at once when nobody is inside |
| LifecycleTheorems.StepInv | adapters/enforce/ops.go:23-94 | every step of every request, sweep and shutdown keeps the whole invariant |
| LifecycleTheorems.DrainComplete | adapters/enforce/adapter.go:210-231 | once a shutdown took what was open and everything then in progress finished, every execution handed out had exactly one closing call, every entry is spent, no slot and no key is held, drained wait or not |
| LifecycleTheorems.Forward | adapters/enforce/handles.go:137-225 | over any run states only move forward, an ending never changes once spent, nothing is open after shutdown |
| LifecycleTheorems.OneCloserEach | adapters/enforce/handles.go:137-225 | in every run an entry is being closed exactly when one process, and only one, was handed it; no execution is closed twice |
| LifecycleTheorems.SlotsAndKeys | adapters/enforce/handles.go:79-110 | in every run a run's count is its admits in flight plus its unspent entries, within the bound and never negative; the held keys are exactly the live holders' keys and no two share one |
| LifecycleTheorems.ReserveExactly | adapters/enforce/handles.go:79-94 | in every run, for an admit about to reserve: a duplicate if and only if a live holder of its run has its key, unavailable if and only if none does and the admits in flight and unspent entries are at the bound, a slot otherwise |
| LifecycleTheorems.ReserveLeads | adapters/enforce/ops.go:23-40 | the step it then takes: on to the pipeline with one slot more and that key held, or away with nothing changed |
| LifecycleTheorems.IdleMeansNoRequest | adapters/enforce/stats.go:47-82 | in every run idle is closed exactly when a stop began and no request is inside, and the latch counts those inside |
| LifecycleTheorems.NeverStuck | adapters/enforce/ops.go:66-94 | in every run every process can take its next step: the entry it acts on is there and still holds its execution |
| LifecycleSlots.FreeingSlot | adapters/enforce/handles.go:103-110 | what one holder frees was counted, so no count falls below zero |
| LifecycleHandings.HandedOnce | adapters/enforce/handles.go:137-225 | over every run an entry is handed to somebody to close at most once, and exactly once if it is being closed or spent at the end |
| LifecycleHandings.HandsExactly | adapters/enforce/handles.go:137-225 | a take, settle, sweep or shutdown hands over exactly the entries it moves from minting or open to closing, and no other step does |
| LifecycleHandings.HandedIsCloser | adapters/enforce/ops.go:66-94 | whoever is handed an entry is its closer from that step on |
| LifecycleEndings.ClosedAsAsked | adapters/enforce/ops.go:112-154 | in every run a client whose take was granted and whose call the pipeline answered closed the execution by the very call it came to make, no other call closed it, and the handle once spent keeps the very answer |
| LifecycleFates.HowExactly | adapters/enforce/ops.go:66-154 | in every run an execution was closed by one kind of call if and only if it is closed and a step left somebody to make that call: complete or abort exactly after that client's take, giving up exactly after a settle, sweep, shutdown or refused mint |
| LifecycleFates.EndingExactly | adapters/enforce/adapter.go:193-231 | in every run a spent handle keeps Abandoned if and only if a settle, sweep or shutdown was handed it, and an answer of the pipeline if and only if a client took it |
| LifecycleOrigins.EntryOrigins | adapters/enforce/ops.go:66-87 | in every run every entry is what one admit asked for: the run it entered for, the key it reserved, the execution the pipeline handed it, the handle and the expiry it minted |
| LifecycleOrigins.TakeExactly | adapters/enforce/handles.go:137-149 | in every run a take is handed an entry if and only if its client entered for the entry's run and names its handle before its expiry, and nobody was handed it yet |
| LifecycleOrigins.SweepExactly | adapters/enforce/handles.go:185-209 | in every run a sweep is handed only open entries expired at its reading, the earliest first, and leaves one only when it took its limit |
| LifecycleOrigins.SweepMeetsTake | adapters/enforce/handles.go:137-209 | what a take at a reading would be granted a sweep at that reading leaves, and every other open entry a sweep with room takes |
| LifecycleOrigins.ShutExactly | adapters/enforce/handles.go:213-225 | in every run a shutdown is handed exactly the open entries and shuts the table, and one whose wait drained finds no request inside |
| LifecycleOrigins.LetInExactly | adapters/enforce/stats.go:53-82 | in every run a request can enter if and only if the adapter was started and no stop began |
| LifecycleProgress.OwnStepsLower | adapters/enforce/ops.go:23-155 | each step of a request, sweep or shutdown ends it or lowers a well-founded measure of it, and moves no other |
| LifecycleProgress.Finishes | adapters/enforce/adapter.go:193-231 | a process left to itself ends in finitely many steps with every other where it stood |
| LifecycleProgress.AlwaysDrains | adapters/enforce/adapter.go:210-231 | from every state any run leads to some run leads to a drained adapter |
| SpentLog.WaitingExactly | adapters/enforce/handles.go:171-195 | in a log of spends and sweeps a handle is kept by the sweeps exactly when it was spent and no later sweep read at or past its expiry |
| SpentLog.CrowdedNeeds | adapters/enforce/handles.go:171-181 | a handle crowded out was followed by maxSpent spends or more |
| SpentLog.CrowdedWithoutSweeps | adapters/enforce/handles.go:171-181 | while no sweep ran exactly those handles are crowded out |
| HandleHistory.HistSpend | adapters/enforce/handles.go:171-181 | a spend keeps the bounded spent queue the uncrowded end of the handles the log keeps |
| HandleHistory.HistSweep | adapters/enforce/handles.go:185-209 | so does a sweep |
| LifecycleHistory.NotedKeeps | adapters/enforce/ops.go:23-155 | so does every step of the adapter |
| HandleHistory.ForgottenExactly | adapters/enforce/handles.go:171-195 | the table forgets an entry if and only if it was spent and a later sweep read at or past its expiry or maxSpent later unpurged spends stood behind it |
| HandleHistory.ForgottenByOne | adapters/enforce/handles.go:171-195 | after fewer than maxSpent later spends, if and only if such a sweep ran; with no sweep, if and only if maxSpent or more followed |
| HandleHistory.AnswersAsHistory | adapters/enforce/handles.go:137-149 | a take is answered as the full history would if and only if the log does not say its handle, of the caller's run and unexpired, was forgotten; otherwise a spent handle is unknown |
| HandleHistory.AnswersInClockOrder | adapters/enforce/handles.go:185-195 | with readings in order purging changes no answer: the two disagree exactly about a handle crowded out |
| LifecycleHistory.RunForgets | adapters/enforce/handles.go:171-209 | the exact conditions above at the end of every run of the adapter with fresh handles, over the run's own spends and sweeps |
| LifecycleHistory.RunAnswers | adapters/enforce/ops.go:173-184 | in every such run a take agrees with the full history if and only if the run does not say its handle was forgotten |
| LifecycleHistory.PurgedByStep | adapters/enforce/handles.go:185-195 | what the log says of sweeps is that some sweep step of the run after the step that spent the entry read at or past its expiry |
| LateReading.LateSpend | adapters/enforce/ops.go:112-132 | a run of the adapter that admits, takes, completes and spends one handle |
| LateReading.LateReading | adapters/enforce/ops.go:173-176 | a sweep at the expiry after it and a take with an earlier reading: the handle is unknown where the history has it spent |
| SocketListen.AtMostOneListener | adapters/enforce/listen_unix.go:51-106 | in every run of locking, looking, dialling, removing, binding, closing and crashing at most one receiver holds the path and no listener is served twice |
| SocketListen.NeverRemovesLive | adapters/enforce/listen_unix.go:140-162 | whatever the dial answers no step removes a living receiver's socket but its own closing |
| SocketListen.ForeignLeftAlone | adapters/enforce/listen_unix.go:140-162 | no step of a receiver changes a path that holds something other than a socket |
| SocketListen.RemovesOnlyRefused | adapters/enforce/listen_unix.go:140-162 | in every run a receiver about to remove the socket had its own dial of it refused |
| SocketListen.AnsweredLeftAlone | adapters/enforce/listen_unix.go:140-162 | after a dial answered otherwise no later step of that receiver touches the path |
| SocketListen.ListensExactly | adapters/enforce/listen_unix.go:51-106 | a receiver alone ends up listening if and only if the path is empty or holds a socket whose dial is refused |
| SocketListen.LeftOnlyByCrash | adapters/enforce/listen_unix.go:76-106 | in every run a socket is left behind only by a crash or from before, the lock is free exactly when nobody lives, and the listeners served are exactly those claimed |
| SocketListen.UnsafeWithoutLock | adapters/enforce/socketlock_flock.go:19-36 | without the lock two receivers can listen, the second having removed the first's socket |
| Senders.Sender.DeliverRecords | adapters/otel/send.go:36-61 | posts, outcome, refusal count and answers consumed are those of the specified delivery |
| Senders.Sender.Settle | adapters/otel/send.go:66-98 | one answer settles the records, splits or quarantines them, or asks for another attempt with the refusals counted |
| Senders.Sender.SplitRecords | adapters/otel/send.go:101-107 | delivers the first half, and the second only if the first was settled |
| Senders.Sender.QuarantineRecords | adapters/otel/send.go:113-126 | hands the records to the quarantine and reports when it cannot keep them |
| DeliveryLaws.DeliverLawful | adapters/otel/send.go:36-126 | for every encoder, quarantine and list of answers, over the log alone: another answer has the same request sent again or ends it with the context; an acceptance with records dropped is followed by their quarantine or its failure; a refusal by a smaller request, another attempt or quarantine; each quarantine has its reason right before it or in the encoder; the answers are used in order, the records settled in order, all of them exactly when the delivery says so |
| DeliveryLaws.NeverFourth | adapters/otel/send.go:76-86 | no request of one record is refused four times running: the third refusal running is not followed by another attempt |
| Bisection.DeliverCovers | adapters/otel/send.go:36-126 | whatever the collector answers, a delivery that reports success left every record in a request accepted with nothing dropped or in the quarantine, and touched no other record |
| Bisection.DeliverThrice | adapters/otel/send.go:66-98 | a record is quarantined as refused only right after three consecutive refusals of it alone |
| Bisection.EveryBatchIsolated | adapters/otel/send.go:36-107 | for every batch, every encoder and every such collector there are answers of that collector with which the isolation below happens |
| Bisection.BisectionIsolates | adapters/otel/send.go:36-107 | against a collector that refuses exactly the requests holding a bad record, the good ones are accepted and exactly the others quarantined, in order, in at most 4n - 1 posts, and in 4n - 1 when all are refused |
| ExportLoops.Collect | adapters/otel/exporter.go:241-261 | a batch is the longest run of records up to its bound or the linger, its cursor past the last; an error drops it |
| ExportLoops.Acknowledger.Acknowledge | adapters/otel/exporter.go:268-291 | the loop settles the queue batch by batch exactly as the pipeline's acknowledging step does, and releases every slot |
| ExportLoops.SettlesPrefix | adapters/otel/exporter.go:268-291 | that moves the cursor past the delivered prefix, and the batch whose acknowledgement moved and failed, counts the prefix, and changes nothing after the first batch not acknowledged |
| ExportTheorems.StepInv | adapters/otel/exporter.go:176-291 | every step of reader, deliveries, acknowledger, cancellation, restart and crash keeps the pipeline's invariant |
| ExportTheorems.CursorNeverPassesUndelivered | adapters/otel/exporter.go:176-291 | over any sequence of runs and restarts every record before the cursor was accepted whole or quarantined, and the cursor stands past a prefix of contiguous batches |
| ExportLedger.PassedWasSettled | adapters/otel/exporter.go:268-291 | in every run every record before the cursor was, by a step of the run, in a request accepted with nothing dropped or in the quarantine |
| ExportLedger.LedgerRun | adapters/otel/send.go:66-126 | a record counts as accepted or quarantined if and only if such a step is in the run |
| ExportLedger.BatchesExactly | adapters/otel/exporter.go:218-261 | in every run every batch is of 1 to MaxBatch records, and what its delivery does is what delivering exactly those records does |
| ExportLedger.SlotExactly | adapters/otel/exporter.go:218-236 | in every run a reader with a batch gets a slot if and only if fewer than InFlight batches are dispatched and not let go |
| ExportLedger.NeverStuck | adapters/otel/exporter.go:176-291 | in every run a running exporter can take a step of its own, or a delivery is waiting to be told that the context ended |
| ExportLedger.CancelledExactly | adapters/otel/exporter.go:187-211 | in every run the context is cancelled if and only if, since the run began, it was cancelled from outside, the reader failed, or the acknowledger met a failed quarantine or a failed acknowledgement |
| ExportLedger.StoppedIsCancelled | adapters/otel/exporter.go:202-216 | in every run a reader that stopped, an acknowledger that halted or a delivery that ended with the context stands in a cancelled run |
| ExportTheorems.AcknowledgedCounts | adapters/otel/exporter.go:143-151 | in every run the counter is the records passed since the process began if and only if no acknowledgement of a delivered batch since then failed once it had moved the cursor; it is never more |
| ExportTheorems.CounterLags | adapters/otel/exporter.go:143-151 | a run in which one record is passed and none counted |
| ExportTheorems.LostOnlyByFailedAck | adapters/otel/exporter.go:143-151 | the difference grows exactly in that step and shrinks only by a restart |
| ExportTheorems.PipelineBounded | adapters/otel/exporter.go:187-236 | at most InFlight batches are dispatched and not let go, and the reader's send always finds room |
| ExportTheorems.SlotsReleased | adapters/otel/exporter.go:268-291 | a run that can end holds no slot and has taken every batch |
| ExportTheorems.HaltedStaysPut | adapters/otel/exporter.go:268-291 | once halted the cursor never moves again in that run |
| SurrogateScan.PairedSurrogates | adapters/otel/receive_json.go:98-120 | on every JSON string of section 7 of RFC 8259, read by a grammar of its own, the index-skipping loop answers true exactly when the escaped surrogates come in pairs; every index is in bounds |
| SurrogateScan.PairedIsWellPaired | adapters/otel/receive_json.go:98-120 | reading pairs from the left is the property that each high one is followed by a low one and no low one stands alone |
| SurrogateScan.HexIsBase16 | adapters/otel/receive_json.go:133-142 | four digits are read as their places in the hexadecimal digits, base 16, and -1 if and only if four such bytes are not there |
| SurrogateScan.EscapedIsEscape | adapters/otel/receive_json.go:125-131 | an escape is read if and only if backslash, u and four hexadecimal digits stand there, as their value |
| SurrogateScan.ScanReadsTokens | adapters/otel/receive_json.go:125-142 | wherever the grammar reads a token the scan stands, and judges what follows alike |
| Manifests.Manifest.Replace | adapters/mcp/manifest.go:182-199 | the index is right for the new lists whatever order the map is iterated in, and the generation is one higher |
| Manifests.Manifest.RouteTo | adapters/mcp/manifest.go:204-217 | accepts exactly when one line of all the lists bears the name and it is classified, and returns that entry |
| Manifests.Manifest.Snapshot | adapters/mcp/manifest.go:222-234 | every entry, in upstream order then list order, unchanged but for its mark, with the generation it belongs to |
| Manifests.SnapshotExactly | adapters/mcp/manifest.go:219-234 | entry i of upstream k stands at the lengths of the earlier lists plus i, unchanged but for its mark, which is set if and only if two lines or more bear its name; nothing else is in the snapshot |
| Manifests.RouteExactly | adapters/mcp/manifest.go:204-217 | each answer of a route and each refusal if and only if its case of how many lines bear the name |
| Manifests.RouteOrderFree | adapters/mcp/manifest.go:182-199 | any two indexes of the same lists route and mark every name alike |
| Manifests.BuildIndex | adapters/mcp/manifest.go:186-197 | the nested loops over an unordered map index every line |
| ListCaches.ListCache.Lookup | adapters/mcp/list.go:325-337 | answers only a list unexpired of the same bundle and generation, and drops what did not match |
| ListCaches.ListCache.Keep | adapters/mcp/list.go:341-361 | keeps a list no older than the last reset while there is room, expired lists making room, never past the bound |
| ListCaches.ListCache.ResetTo | adapters/mcp/list.go:365-370 | drops every list and never lowers the generation below which lists are refused |
| ListCaches.DropExpired | adapters/mcp/list.go:350-354 | the deleting loop leaves exactly the unexpired lists whatever its order |
| ListCacheLaws.FloorIs | adapters/mcp/list.go:363-370 | over any lookups, puts and resets the generation below which lists are refused is the highest any reset named |
| ListCacheLaws.FoundWasPut | adapters/mcp/list.go:325-361 | a list found was put for that principal, bundle and generation less than the ttl before, and no reset came since |
| ListCacheLaws.KeptExactly | adapters/mcp/list.go:341-361 | a list at or above the floor is kept if and only if its principal has one or fewer than 1024 are unexpired, and no unexpired list is lost by it |
| ListCacheLaws.PutIsFound | adapters/mcp/list.go:325-361 | a list kept and not reset, replaced, looked up otherwise or expired is found by every lookup of it before its expiry, and by none after |
| ListTools.StepInv | adapters/mcp/list.go:129-163 | every step of a request, a refresh or a bundle swap keeps each request and each cached list right |
| ListTools.CachedIsFresh | adapters/mcp/list.go:129-210 | in every run a list answered from the cache or kept in it is the request's own snapshot shaped wholly under the bundle in force when it probed |
| ListTools.CacheHolds | adapters/mcp/list.go:325-370 | in every run the cache is within its bound and each list in it is fresh for the one principal its key names, from no manifest older than the last reset |
| ListOrigins.ServedRight | adapters/mcp/list.go:129-210 | in every run every list answered, cached or not, shows its principal the manifest current when its request began: all that may be shown, in order, each entry as decided under a bundle in force when a step of the request looked |
| ListOrigins.AllFromRun | adapters/mcp/list.go:129-210 | in every run each request's principal and manifest are those of its first step, and the bundle it is cached under the one in force at its probe |
| ListReuse.SecondFromCache | adapters/mcp/list.go:129-163 | after any run, of two listings of one principal with nothing in between, the second is answered from the cache with the first's list until the ttl after it was kept and no longer |
| ListReuse.OfferedExactly | adapters/mcp/list.go:140-211 | in every run a list that was shaped is offered to the cache if and only if caching is on, the bundle probed tells it apart and every preview was decided under it; the entry probed is not previewed again |
| ListTools.ShapingSubtracts | adapters/mcp/list.go:229-262 | shaping shows, in order, exactly the tools not withheld, less under hiding those not classified, listed twice or denied; under annotation, and only then, each is marked unclassified, decided per call or with the policy's own verdict |
| ListTools.KeyInjective | adapters/mcp/list.go:215-219 | for one listener's principals the cache key names one principal only, whatever its id holds |
| ListTools.BundleIndependent | adapters/mcp/list.go:185-198 | a list no preview shapes is the same under every bundle, so it may be cached under none |
| SessionCaps.SessionCap.Admit | adapters/mcp/sessions.go:34-42 | admits and counts an open exactly when live and opening are below the limit |
| SessionCaps.AnswerWriter.Begin | adapters/mcp/sessions.go:82-90 | takes its open off the count once, however often it is called |
| SessionCaps.NeverAbove | adapters/mcp/sessions.go:19-49 | in every interleaving of counting, deciding, listing, beginning and dropping the live sessions, with those yet to be listed, are at most the limit |
| SessionCaps.OpeningCounts | adapters/mcp/sessions.go:34-48 | the counter is the admitted opens not begun, so never negative, and 0 once all have begun |
| SessionCaps.AdmitsExactly | adapters/mcp/sessions.go:34-42 | in every reachable state an open counting undisturbed is admitted if and only if live and unbegun opens are below the limit |
| Calls.TraceMeans | adapters/mcp/middleware.go:185-271 | a call is admitted first; an execution, with obligations or without, is closed or aborted exactly once and last, anything else never; one send exactly when every check holds, of the authorized arguments, closed with the bytes sent; each abort's cause is the first check that failed |
| Calls.Adapter.Run | adapters/mcp/middleware.go:185-222 | what the call makes visible is that trace; draining makes nothing visible; the latch is as it was found |
| Calls.Adapter.SendOnce | adapters/mcp/middleware.go:237-250 | nothing is sent for a caller that gave up; otherwise one send and its close |
| CallRuns.OneRecordEach | adapters/mcp/middleware.go:185-271 | in every run a call that is over did what its disposition says with one record, one that is not has none and sent only after every check |
| CallRuns.DrainedNone | adapters/mcp/adapter.go:75-134 | a drain that counts none leaves every call, then and later, recorded or turned away before admission; idle is closed exactly in those states |
| CallRuns.TurnedExactly | adapters/mcp/middleware.go:185-222 | in every run a call is turned away with nothing done if and only if a stop began before it entered, and one that is over did what the pipeline's answer and its own check say |
| Rosters.SameIsEqual | cmd/guardana-control/operators.go:229-239 | field by field and signature by signature only equal envelopes are the same |
| Rosters.StepInv | cmd/guardana-control/operators.go:139-170 | every step of every signer, failing or crashing, keeps the invariant |
| Rosters.ReplacesWhatItRead | cmd/guardana-control/operators.go:139-170 | in every run each write replaced exactly what its signer read before the lock, with no write lost between, and never a file that is no roster |
| Rosters.SerialsRise | cmd/guardana-control/operators.go:249-259 | serials strictly rise over any stretch of writes of one root and id |
| Rosters.WritesExactly | cmd/guardana-control/operators.go:249-259 | a lone signer writes if and only if the path is empty or holds a roster that does not verify under its root, is of another id, or has a lower serial |
| Rosters.SerialRepeats | cmd/guardana-control/operators.go:73-77 | three signers one after another write serial 1 twice, another root's roster between |
| RosterOrigins.WrittenAsBegun | cmd/guardana-control/operators.go:139-170 | in every run each write is of a signer that began with the job written and found then the envelope it replaced, and the path holds what the last write wrote |
| RosterOrigins.WritersExactly | cmd/guardana-control/operators.go:166-169 | in every run the writes are made by exactly the signers whose replacement reached the rename, in that order |
| RosterOrigins.RechecksExactly | cmd/guardana-control/operators.go:155-164 | in every run a signer holding the lock goes on to write if and only if it finds at the path what it found when it began |
| CompareFindings.DifferencesMean | cmd/guardana-control/procedure_expect.go:40-58 | no difference means equal, one means the named field alone turns one into the other |
| CompareFindings.Matched | cmd/guardana-control/procedure_expect.go:119-129 | the loop deleting from both lists by index ends with what the greedy pass leaves and pairs |
| CompareFindings.IndexFits | cmd/guardana-control/procedure_expect.go:121-121 | an expected finding takes the first made one that fits, and none only when none fits |
| CompareFindings.PassKeepsOrder | cmd/guardana-control/procedure_expect.go:119-129 | what a pass leaves of either side, and the expected findings it pairs, stay in the order they were in |
| CompareFindings.ReportAccounts | cmd/guardana-control/procedure_expect.go:112-142 | matched are exactly the findings in common, each other one is paired by one difference, missing or unexpected, and no missing and unexpected one differ in fewer than two fields |
| CompareFindings.SilentIffEqual | cmd/guardana-control/procedure_expect.go:117-142 | nothing is reported if and only if the two sides are equal as multisets |
| CompareFindings.ChangedNames | cmd/guardana-control/procedure_expect.go:131-133 | every changed line is its pair, and names the one field in which the two differ |
| CompareFindings.ReportSays | cmd/guardana-control/procedure_expect.go:130-141 | the lines are the pairs, as changed, then exactly the findings only wanted, as missing, then exactly those only got, as unexpected, each in order |
| CompareFindings.Compare | cmd/guardana-control/procedure_expect.go:117-142 | the loops compute that report |
| ShellWords.TrimEmpty | cmd/guardana-gateway/dev.go:235-236 | trimming from both ends leaves nothing if and only if every character is in the safe set |
| ShellWords.WordReads | cmd/guardana-gateway/dev.go:233-239 | wherever no quote is open, a POSIX shell reads the written word as exactly the string, onto the word it is in and whatever follows |
| ShellWords.OneWord | cmd/guardana-gateway/dev.go:233-239 | written and read back, a string is one word equal to itself |
| ShellWords.BareExactly | cmd/guardana-gateway/dev.go:233-239 | a string is written as it is if and only if it is not empty and every character is of the listed set |
| ShellWords.LineReads | cmd/guardana-gateway/dev.go:206-212 | a line of flags, values and flags joined to values is read back as just those words, in order |
| ShellWords.ScenarioReads | cmd/guardana-gateway/dev.go:204-212 | the command scenarioCommand makes, up to its last flag, is read back as the gateway's name, its flags and the values it was made from |
| Printing.NextFinds | internal/keytext/keytext.go:74-95 | a span of key text is found if and only if a PEM marker or the start of a key file's body stands somewhere, and the span holds it |
| Printing.WithholdWeighs | internal/keytext/keytext.go:60-72 | a line without key text is left as it is, and from any other each withheld span takes a character the stand-in does not give back |
| Withholding.NextIs | internal/keytext/keytext.go:74-113 | a span is found in every line a marker stands in, and is what the first marker begins: a block through its closing marker or to the end, a closing marker through its dashes, or the longest run of base64 around a body's start |
| Withholding.NothingLeft | internal/keytext/keytext.go:60-72 | whatever the line, no marker is left in it, not even one made by what is taken out |
| Withholding.WithholdRedacts | internal/keytext/keytext.go:37-47 | each such span from the first on is replaced by the stand-in, and all else is kept |
| Withholding.WithholdText | internal/keytext/keytext.go:60-72 | the loop computes that |
| Withholding.FirstSpan | internal/keytext/keytext.go:74-95 | the search and its two widening loops compute the first span |
| Printing.PrintedReads | cmd/guardana-gateway/dev.go:181-194 | a command printed for pasting is read by a shell as its program, its flags and the values it was made from if and only if it holds no key text and no character that breaks a line |

## Assumptions

- A handle minted is not one in use, and for the comparison with the full history not one
  used before.
- The MCP library lists a session before its answer begins, lists at most one for an open,
  and gives a count of its sessions taken at one moment.
- A preview depends on the principal, the entry and the bundle, and two bundles have two
  digests.
- Signing yields an envelope that verifies under its own root as the document signed.
- Everyone who binds the socket or writes the roster follows the protocol modelled here.
- Records acknowledged before a crash are those the spool's position covers when it restarts,
  or more is read again.

## Left out

- HTTP, TLS, protobuf and JSON decoding, and the MCP library: requests are steps already
  decoded.
- The pipeline, the policy kernel, the spool's files and the quarantine's files: answers the
  labels choose.
- Signature verification, hashing, obligations and secret scanning: predicates or functions
  given as parameters.
- `toHonour`, `endingOf`, `resultStatus`, `abortCause` and the error bodies in
  `adapters/enforce/ops.go`: short case tables.
- Counters other than the in-flight, session, refusal and acknowledged counts.
- Backoff, timeouts and waiting: a step that waits is one that can be taken later. Fairness is
  not modelled: a process the scheduler never runs again does not end.
- A panic inside a request or a call, after which its deferred leave runs without a record.
- Ownership, mode and directory checks around the socket and the roster: the choice to refuse.
- A listener closed twice.
- The 64-bit width of generations and counters: generations are unbounded integers.
- `readAll`, `stripMeta` and the fields of a tool: a tool is opaque and a snapshot is given.
- The agent and request fields a preview also carries: see the assumption on previews.
- The placeholders `<file>` and `<approval-id>` that end two of the printed commands.
- Double quotes, expansions, patterns and operators in the shell's reading: a line with one of
  them bare is read as no words, where a shell would do more.
- Which characters break a line, and how a quoted line escapes them: parameters.
- Reserved words and assignments in command position: a shell word is read as an argument.
- `react`, `renew`, the `stops` commands, flags, health and documentation generators.
- Rosters.SerialsRise: states one direction, since a write of another root or id between two
  writes permits a repeat and does not force one.
