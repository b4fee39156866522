# The daemon's message custody, proved

A Dafny 4.11 model of the parts of the daemon that keep state and promise something about whole
runs, and proofs of those promises. `dafny verify dfyconfig.toml` checks everything.

The project follows the program's components.

- **Message custody.** `Custody.dfy` says, operation by operation, where every undelivered message of
  an agent is and what each operation does with it; the runner is an abstract environment that answers
  each push as it likes. `CustodyLaws.dfy` proves the ledger over every run, `CustodyControl.dfy` what the
  history of an agent decides and where its messages go, `CustodyOrder.dfy` what pauses promise about order, `CustodyPushes.dfy` what a runner's answers make of a list,
  `CustodySpool.dfy` exactly when the spool comes first, `CustodyPlaces.dfy` who stands in front of whom
  and what an acknowledgement means, `CustodyLosses.dfy`, for every operation, exactly the states on which
  it loses nothing, and `CustodyExamples.dfy` the inputs on which a promise is broken. `AgentHost.dfy` is
  the host itself, with its maps and sets updated in place; each method does to an agent exactly the
  custody step, and `HostRuns.dfy` lifts the ledger to any sequence of calls for any agents. `Messages.dfy`,
  `KeyedFifo.dfy`, `InboundDedup.dfy` and `QueueRetained.dfy` are the holders it is made of. A runner may call
  the host's queue hook while it takes a push; what that retries happens inside the push, as in the code.
- **Handover.** `Reexec.dfy` models what one process writes and the next one loads, and proves the
  laws of the switch, whichever of its two writes fail; `ReexecAges.dfy` says how long each message may wait; `Handover.dfy` is the commit and the boot as they are
  written. `Lives.dfy` chains boot, any calls, handover and boot, and follows what was collected up to the
  runner of the next process.
- **Keys.** `KeyRing.dfy` models the ring of project keys over an ideal authenticated encryption (the
  interface of section 2 of RFC 5116; the original uses the algorithm of its section 5.2);
  `ProjectKeyStore.dfy` keeps the keys in arrays that are zeroed in place.
- **Hot set.** `MemoryBudget.dfy`: the two-pass allocator.
- **Live queue.** `QueueLive.dfy`: the snapshot and what it may show.
- **Incremental reader, serialised writer, cached walk.** `GrokSweep.dfy`, `ClaudeStdin.dfy`,
  `PeerAncestry.dfy`.

Where the code does not do what its comments promise, the model follows the code, a lemma names the
failing input, and another states exactly when the promise is kept:

| promise | kept exactly when | stated by | failing input |
|---|---|---|---|
| a flush delivers what was buffered (`src/agent-host.ts:1657`) | every record reached opens, and in a drain none has an id; to a runner: it takes the pause queue behind a spool that got through, and then each fresh message of the buffer in its turn, where the turn counts the pushes that retry a stuck spool from inside an earlier one; while paused, all of it fits the pause queue; during a drain, no real id of it is held already; without a runner, nothing is fresh (`SafeFlush`) | `CustodyLosses.LosesNothingIff`, `CustodyLosses.FlushLoses`, `CustodyLosses.SafeWhenThrough`, `CustodyLosses.SafeWhenStuck` | `CustodyExamples.DeadRunnerLosesBuffer`, `RefusalLosesBuffer`, `FullPauseLosesBuffer`, `RetryTakesAPush` |
| a retried spool loses nothing (`src/agent-host.ts:1688-1690`) | there is no runner; or the agent is paused and nothing is spooled; or it drains and every record opens and has no id; or every record the runner gets to see opens (`SafeRetry`) | `CustodyLosses.LosesNothingIff`, `CustodyLosses.RetryLoses` | `CustodyExamples.PausedQueueChangeLosesSpool`, `UnreadableRecordIsLost` |
| an acknowledged delivery is in custody (`src/agent-host.ts:1314-1316`) | the agent is not paused, or the delivery has an id, or no other without an id waits | `CustodyPlaces.AckMeansKept` | `CustodyExamples.NamelessAckIsLost` |
| a spool read during a drain is kept as it was (`src/agent-host.ts:1959-1960`) | every record opens and has no id | `CustodyLosses.DrainRetryLoses` | `CustodyExamples.DrainStripsId` |
| the spool comes before the buffer (`src/agent-host.ts:1614-1616`) | the runner takes all that is readable in the spool, or none of the fresh buffer at the pushes behind the one it turned down | `CustodySpool.FlushOvertakesIff`, `CustodySpool.OvertakesIff` | `CustodyExamples.FlushOvertakesSpool` |
| no id is both without a record and turned away (`src/reexec-snapshot.ts:1-7`) | it was on the file, or the handover collects it (which takes an entry for its retained queue), its project has a key and the spool can be written; or the list on the disk, which is the new one only if both writes worked, does not name it or counts no longer | `Reexec.NoIdFallsBetween`, `Handover.SwitchProcess` | `Reexec.OrphanIsMissed` (no entry), `CustodyExamples.UnwrittenListLosesKeyless` (no key, and the list not written), `CustodyExamples.FailedCommitLosesWaiting` (spool not written) |
| what is written arrives (`src/agent-host.ts:1932-1947`) | the next process holds the key it was sealed under, or its replay is let in | `Lives.CollectedArrivesIff`, `Lives.IdArrivesIff` | any agent whose key is rotated as in `KeyRing.ColdRotationLosesHistory` |
| a rotation keeps history readable (`src/daemon-crypto.ts:264-266`) | without a ring from the server: RAM is warm, or nothing else was held; with one: every held key is the new one or in the ring's own chain | `KeyRing.RotationKeepsHistoryIff` | `KeyRing.ColdRotationLosesHistory`, `KeyRing.UnopenableRingLosesHistory` |
| the key file preserves it over a restart (`src/daemon-crypto.ts:339-340`) | the ring last written, as far as its sealed entries alone reach, has every key that is in RAM | `KeyRing.NothingForgottenIff`, `KeyRing.RestartKeepsIff` | `KeyRing.ClearEntryLosesHistory` |
| a record of a keyed project is sealed (`src/queue-live.ts:111-134`) | its text always; its images iff the frame has parts, came in clear, or has no clear image | `QueueLive.RecordsOfKeyedProjectAreSealed` | `QueueLive.SealedFrameWithClearImage` |
| what is sealed can be opened (`src/daemon-crypto.ts:530-544`) | the associated data is absent or not empty | `KeyRing.OpensExactly` | `CustodyExamples.EmptyDataNeverOpens` |
| giving back restores the queue (`src/queue-retained.ts:160`) | the items fit and share no key with it | `QueueRetained.PodeDevolverIsExact` | `QueueRetained.DevolverCanDuplicate` |
| guaranteed shares (`src/memory-utils.ts:104-110`) | the first non-empty entry is of the last block, or leaves room for the shares of the blocks after its own | `MemoryBudget.SharesGuaranteedIff` | `MemoryBudget.TightEntriesLose` |

## Model

| member | source | states |
|---|---|---|
| CustodyLaws.EveryRunBalances | src/agent-host.ts:1386-1743 | the custody ledger: in every run of sends, server deliveries, pauses, resumes, stops, spawns, drains, flushes, removals, and of the runner and time, for every message, copies held before plus entered equal copies held after plus those gone by a declared way; the retained cap and the sealed spool are kept |
| CustodyLaws.StepBalances | src/agent-host.ts:1386-1743 | the same for each single operation, from any well-kept state |
| CustodyLaws.StepKeeps | src/agent-host.ts:1787-1847 | every operation keeps the retained queue within its cap and only sealed blobs in the spool |
| CustodyLaws.SendBalances | src/agent-host.ts:1576-1655 | a sent message is held, handed over, or gone by exactly one declared way (refused, gate, duplicate, evicted), and what it pushes out is accounted for |
| CustodyLaws.QueueDeliverBalances | src/agent-host.ts:1276-1350 | a message delivered by the server is accounted for, accepted or not |
| CustodyLaws.FlushBalances | src/agent-host.ts:1658-1686 | a flush accounts for spool, pause queue and buffer together |
| CustodyLaws.DeliverSpoolBalances | src/agent-host.ts:1950-1989 | delivering the spool accounts for every record: pushed, kept, handed back to a paused agent, re-held by a drain, or unreadable |
| CustodyLaws.LiberarBalances | src/agent-host.ts:1430-1461 | releasing the pause queue accounts for each item, the ones stopped by the member gate included |
| CustodyLaws.SpawnBalances | src/agent-host.ts:495-552 | replacing a runner retains what it had not started and accounts for the turn that dies |
| CustodyLaws.StopBalances | src/agent-host.ts:1052-1067 | stopping an agent retains its queue and accounts for the rest |
| CustodyLaws.RemoveBalances | src/agent-host.ts:1165-1181 | removing a delivery takes out exactly one message |
| CustodyLaws.StartDrainBalances | src/agent-host.ts:1729-1743 | starting a drain moves the runner's queue into the drain queue, losing only second copies of an id |
| CustodyLaws.HoldInFlightBalances | src/agent-host.ts:1750-1765 | the turn in flight at a shutdown is re-held, unless its id already is |
| HostRuns.RunHost | src/agent-host.ts:206-240 | any sequence of calls to the host, for any agents, is for each agent the run of custody steps it feels of these calls: its own calls and those for everybody, each as it is, and of another agent's call at most a sweep of the retained queues; if every rewrite of the spool file works, the file shows at the end, as at the start, what still waits |
| HostRuns.RunHostBalanced | src/agent-host.ts:206-240 | hence the ledger of these very calls balances on the host itself, with its maps and sets |
| HostRuns.OwnCallsAreTheRun | src/agent-host.ts:206-240 | when all calls are for one agent, its run is these calls, in order |
| CustodyControl.HistoryDecides | src/agent-host.ts:495-552 | over every run, whatever messages come, keys are held and runners answer: whether an agent is paused, draining, known, stopped, alive, and of which project follows from eight kinds of operation alone; and an agent with buffered messages is always on the list that a handover goes through |
| CustodyControl.SendLands | src/agent-host.ts:1576-1655 | after any run a sent message goes where that history says: the pause queue, the drain queue, the buffer, the retained queue or the runner, as the newest of what is fresh there, at most 200 in a pause and 20 in the buffer, unless a copy covers it; a member's goes to the runner or is turned away; no other place changes |
| CustodyControl.StoppedIsLeftAlone | src/agent-host.ts:1430-1655 | after the stop of an agent with a runner, no run of sends, pauses, resumes, reconnections, removals or drains pushes anything, until a start or what the server or the spool brings |
| CustodyControl.StopHolds | src/agent-host.ts:1641-1652 | at the end of such a run, not paused, not draining and with nothing spooled, a member's message is turned away and an owner's is the newest of the retained queue, unless the delivery waits there already |
| CustodyControl.RestartedSendIsPushed | src/agent-host.ts:1011-1023 | after the end of a start, with nothing spooled, an owner's message goes to the runner |
| CustodyControl.DeliveryAckedIff | src/agent-host.ts:1276-1347 | after any run, the server is answered yes iff there is a runner and either the agent is paused or the runner takes the push |
| CustodyControl.StopRetainsQueue | src/agent-host.ts:1052-1067 | a stop kills the turn in flight and puts the not-started queue, in order, behind what is fresh in the retained queue, when the deliveries are new and fit; no other place changes |
| CustodyControl.SpawnRetainsQueue | src/agent-host.ts:541-552 | a spawn does the same with the queue of the runner it replaces; the new runner starts empty and not stopped |
| CustodyControl.OneRetained | src/queue-retained.ts:110-134 | one item is turned away iff the same real id, or without an id the same digest, waits already; else it is the newest of at most 200 |
| CustodyControl.ReconnectRepeats | src/agent-host.ts:534-541 | a spawn that finds its runner alive does what a pause of an unpaused agent does, or a resume of a paused one |
| CustodyControl.RepeatedDoesNothing | src/agent-host.ts:1386-1404 | pausing what is paused, resuming what is not and stopping what does not run do nothing |
| CustodyOrder.PausedIsLeftAlone | src/agent-host.ts:1386-1461 | while an agent is paused no operation hands its runner anything, and only resume, spawn and reconnect can end the pause |
| CustodyOrder.NothingReachesAPausedRunner | src/agent-host.ts:1386-1461 | the same over whole runs |
| CustodyOrder.EveryPushIsRecorded | src/agent-runner.ts:1077-1182 | the recorded pushes are exactly the runner's: its counter grows by their number |
| CustodyOrder.PauseIsTransparent | src/agent-host.ts:1386-1461 | pause, arrivals, resume: the runner is offered, in order, the newest 200 of its old queue followed by the arrivals; all of them iff at most 200 |
| CustodyOrder.PausedRunEndsTheSame | src/agent-host.ts:1386-1461 | a willing runner ends with the same queue with or without the pause, iff everything fits under the cap |
| CustodyOrder.SpoolIsFifo | src/agent-host.ts:1966-1984 | one delivery grows the runner's queue by exactly the readable records of a spool prefix, in order; the rest stays, headed by the record just refused |
| CustodyPushes.PushAllExact | src/agent-host.ts:1446-1457 | a list handed to a runner past the gate loses nothing iff the runner takes each message at its own push index |
| CustodyPushes.PushBufferExact | src/agent-host.ts:1680-1694 | the buffer, pushed one by one while the runner's calls of the hook retry the spool: where the pushes and the spool stand afterwards is told from the answers alone, and nothing of either is lost iff each message is taken in its turn and each record the hook reaches opens |
| CustodyPushes.PassInARow | src/agent-host.ts:1680-1682 | with nothing spooled that means taken in a row |
| CustodyPushes.PushSpoolExact | src/agent-host.ts:1966-1984 | one delivery, from the runner's answers alone: what it leaves starts with the first readable record that is turned down at its index, it drops a record iff one that it reaches does not open, and it makes that many pushes |
| CustodySpool.FlushOvertakesIff | src/agent-host.ts:1658-1686 | a flush keeps the spool ahead of the buffer iff the runner takes all that is readable in the spool, or none of the fresh buffer at the pushes behind the refusal; the retries from inside a push are counted in what it delivers |
| CustodySpool.OvertakesIff | src/agent-host.ts:1276-1743 | of the operations that neither pause nor drain, exactly a delivery that is taken and such a flush let something newer overtake a waiting spool |
| CustodySpool.SpoolComesFirst | src/agent-host.ts:1617-1637 | over whole runs without those, and any answers of the runner, what was readable in the spool of the previous process is taken in spool order, each message once, before anything newer; while some of it waits, nothing newer has been taken |
| CustodyLosses.LosesNothingIff | src/agent-host.ts:1276-1765 | for every operation, counting copies: no message, held or arriving, has fewer copies afterwards, less what it is meant to let go (what outlived a TTL, a turn that ends, what is taken out or forgotten), iff the state before is `Safe`, a condition on runner answers, room, ids and keys |
| CustodyLosses.SafeRunLosesNothing | src/agent-host.ts:1276-1765 | a run of operations on safe states, turns that end, removals and discards among them, ends with everything it held and took in, less what these let go and what expired |
| CustodyLosses.FlushLoses | src/agent-host.ts:1658-1694 | a flush loses nothing iff `SafeFlush`: every record reached opens, and what is behind the spool is taken in its turn, retries from inside a push counted, or fits, or is no second copy |
| CustodyLosses.SafeWhenThrough | src/agent-host.ts:1671-1682 | when the runner takes all that is readable of the spool: it takes the pause queue, unless the agent is stopped, and the fresh buffer in a row |
| CustodyLosses.SafeWhenStuck | src/agent-host.ts:1680-1694 | when it does not: each fresh message of the buffer passes behind the refusal, with the retries its own pushes set off |
| CustodyLosses.DeliverLoses | src/agent-host.ts:1276-1350 | a delivery by the server loses nothing iff there is no runner, or the paused agent holds nothing with that id and has room, or what the hook retries from inside the push is not lost |
| CustodyLosses.RetryLoses | src/agent-host.ts:1688-1694 | a retried spool loses nothing iff `SafeRetry` |
| CustodyLosses.DrainRetryLoses | src/agent-host.ts:1957-1962 | a spool read during a drain loses nothing iff every record opens and none has an id |
| CustodyLosses.NewKeysIsExact | src/queue-retained.ts:110-134 | the retained queue turns nothing away and pushes nothing out iff all keys are new and there is room |
| CustodyLosses.NoSecondCopyIsExact | src/agent-host.ts:1716-1724 | holding for the drain drops nothing iff no real id is held already or comes twice |
| CustodyExamples.DeadRunnerLosesBuffer | src/agent-host.ts:1676-1680 | a runner that dies before the flush: the buffered message is held before and nowhere after |
| CustodyExamples.RefusalLosesBuffer | src/agent-host.ts:1680-1682 | a living runner that turns the buffered message down: held before and nowhere after |
| CustodyExamples.FullPauseLosesBuffer | src/agent-host.ts:1415-1426 | a flush to a paused agent with 200 items: the buffered message goes in front and is cut off |
| CustodyExamples.PausedQueueChangeLosesSpool | src/agent-host.ts:1691-1694 | a paused agent whose runner reports a change: the spooled message is gone |
| CustodyExamples.UnreadableRecordIsLost | src/agent-host.ts:1966-1970 | a record that does not open: one copy before the retry, none after |
| CustodyExamples.DrainStripsId | src/agent-host.ts:1957-1960 | a spool read during a drain is held without its id, and no longer with it |
| CustodyExamples.DrainKeepsNameless | src/agent-host.ts:1957-1960 | the same drain loses nothing of a message that had no id |
| CustodyExamples.FlushOvertakesSpool | src/agent-host.ts:1658-1686 | a runner that refuses once has the newer message while the older one is still in the spool |
| CustodyExamples.FailedCommitLosesWaiting | src/reexec-snapshot.ts:21-28 | a run of the host: boot, a paused spawn, a commit that cannot write, boot again; the id was held before, and now no holder has it and its replay is turned away |
| CustodyExamples.UnwrittenListLosesKeyless | src/reexec-snapshot.ts:29-36 | the same start, then a spawn without a project: the message cannot be sealed, the spool is written and the list is not; the id was held before, and now no holder has it and its replay is turned away |
| CustodyExamples.RetryTakesAPush | src/agent-host.ts:1680-1694 | one record that the runner turns down, and two buffered messages: the hook offers the record again from inside the first of them, so nothing is lost iff the fourth answer, not the third, is an accept |
| CustodyExamples.NamelessAckIsLost | src/agent-host.ts:1314-1324 | a paused agent that holds one item without an id acknowledges another and drops it |
| CustodyExamples.EmptyDataNeverOpens | src/daemon-crypto.ts:454-473 | what is sealed under empty associated data opens under none |
| CustodyPlaces.ShutdownKeepsOrder | src/agent-host.ts:1716-1824 | with distinct ids, and the key carried over, the next process reads the turn in flight first, then the drain queue, the runner's queue, the retained queue, the buffer, the pause queue and what still opens of the old spool, each in its own order |
| CustodyPlaces.PausePutsQueueInFront | src/agent-host.ts:1405-1426 | a pause puts the runner's queue in front of what already waits, newest 200 kept |
| CustodyPlaces.PausedFlushOrder | src/agent-host.ts:1661-1669 | a flush of a paused agent puts the spool, then the buffer, in front of the pause queue |
| CustodyPlaces.DrainingFlushOrder | src/agent-host.ts:1658-1674 | a flush while the host drains holds the spool, without ids, and then the buffer behind what the drain holds, and pushes nothing |
| CustodyPlaces.DrainingResumeOrder | src/agent-host.ts:1439-1443 | a resume while the host drains moves the pause queue behind what the drain holds, and pushes nothing |
| CustodyPlaces.AckMeansKept | src/agent-host.ts:1314-1347 | an acknowledged delivery stands behind the runner's queue, in front of what the hook adds, or waits in the pause under its id; without an id it waits iff no other without an id did; an unacknowledged one leaves no trace but the push |
| CustodyPlaces.RemovalFinds | src/agent-host.ts:1165-1189 | a removal takes the first message with the asked id in the runner's queue, the buffer, the drain queue and the pause queue, in that order, and nothing else; it takes none only when no holder has it |
| CustodyPlaces.RemovalSplices | src/agent-host.ts:1165-1189 | and these four lists, one behind the other, are then as before without that message |
| CustodyPlaces.MembersNeverWait | src/agent-host.ts:1585-1597 | unless paused, a member's message is with the runner at once or turned away, never held |
| CustodyPlaces.GateIsAskedOnRelease | src/agent-host.ts:1446-1457 | with the gate shut, releasing the pause queue drops every member's message and pushes none |
| Reexec.NoIdFallsBetween | src/reexec-snapshot.ts:8-37 | of any id, whichever of the two writes fail: the file has a record iff it had one or the id is collected, its project has a key and the spool is written; the list turns the replay away iff the list on the disk (the new one if it was written, else the old one) names it, less the lost ones, and still counts |
| Reexec.WrittenHandoverCovers | src/agent-host.ts:1787-1847 | with both writes working, no id that the handover reaches is both without a record and turned away |
| Reexec.RecordedIff | src/agent-host.ts:1806-1830 | an id is recorded iff it was, or is collected and the project key can seal; it is declared lost iff it is collected without one |
| Reexec.RecordedOrLost | src/agent-host.ts:1806-1830 | every id the handover reaches is a spool record or declared lost, and no other is |
| Reexec.OnlyOrphansAreMissed | src/agent-host.ts:1202-1209 | what a handover misses is only the retained queue of an agent without an entry |
| Reexec.OrphanIsMissed | src/agent-host.ts:1202-1209 | such a message is real: held, without a record, and suppressed on replay |
| Reexec.SuppressedIff | src/main.ts:460-475 | the new process turns a replay away iff the list still counts and names the id |
| Reexec.RecordedIffSuppressed | src/reexec-snapshot.ts:8-37 | an id collected by one agent and seen has a record exactly when its replay is turned away, so that it arrives once, iff the new list is written and still counts or there is no key, or, without a new list, the old one names it exactly when it could be sealed and written |
| Reexec.FailedWriteKeepsAll | src/agent-host.ts:1826-1840 | after a failed write every message is still in memory, less second copies of an id and expired buffered ones |
| Reexec.DuplicatesAreCovered | src/agent-host.ts:1716-1724 | a copy that collecting drops always leaves another item with its id |
| Reexec.SealedOrLost | src/agent-host.ts:1811-1825 | a batch is written as a whole or lost as a whole, depending on the project key alone |
| Reexec.OnlySealedReachesDisk | src/agent-host.ts:1814-1824 | no plaintext reaches the disk: every record is an e2e:v2 blob under the active project key, bound to the spool |
| Reexec.SpoolRoundTrip | src/agent-host.ts:1932-1947 | the new process reads back exactly the collected messages, in order, followed by what was pending, if it holds the key; only the latter if it does not |
| Reexec.SealThenRead | src/agent-host.ts:1932-1947 | a record opens for the next process iff it holds the key it was sealed under |
| Reexec.YoungMessagesArrive | src/agent-host.ts:1874-1900 | what is within its TTL all waits for the spawn, in order, and is readable iff the key crosses over |
| Reexec.YoungRecordsWait | src/agent-host.ts:1857-1901 | loading keeps the young records of each agent in file order |
| Reexec.BootBalances | src/agent-host.ts:1857-1901 | loading accounts for every record: it waits, is retained, or is declared lost |
| Reexec.HandoverBalances | src/agent-host.ts:1787-1847 | what is held at a handover is in the agent's records or in one of the declared losses |
| Reexec.WriteMovesAll | src/agent-host.ts:1826-1847 | a handover that was written moves what it collected out of memory: of each message, what was held is on the file, or still in memory, or a second copy, expired in the buffer, or without a key |
| ReexecAges.PlaceDecidesTheWait | src/agent-host.ts:1795-1824 | with the key at hand, each message collected from a place, unless an earlier copy covers it, has a record with its text, id, sender and age, and this record waits at boot iff the message is at most seven days old, from the pause queue or the retained queue, or one hour, from the drain queue or the buffer |
| ReexecAges.WaitsAtBootIff | src/agent-host.ts:1857-1886 | in the next process the record is in the agent's spool after the boot iff the message is no older than that |
| ReexecAges.PatienceRunsOut | src/agent-host.ts:1876-1895 | an older one goes to the retained queue with its own age, if its key crosses over |
| Reexec.TwoProcessLedger | src/agent-host.ts:1787-1908 | the ledger over two lives: old run, handover, boot and new run together account for every message |
| Handover.CommitReexecSnapshot | src/reexec-snapshot.ts:8-37 | spool first, seen ids only after it and without lost ones; a spool that cannot be written leaves the disk as it was and everything collected in memory; a list that cannot be written leaves the old one |
| Handover.BootProcess | src/main.ts:460-475 | the new process starts each agent from its records and its deduper from the seen list; the file then shows what it holds, if it can be rewritten |
| Handover.SwitchProcess | src/reexec-snapshot.ts:8-37 | a whole handover, whichever writes fail: each agent starts from exactly its lines, an id is on them iff the handover law says so and is otherwise held nowhere, and a replay is refused iff the list on the disk does |
| Handover.SwitchThatLoses | src/reexec-snapshot.ts:21-36 | so an id falls between whenever it is not on the file, the new list is not written, and the old one still counts and has it |
| Handover.FallsBetweenIff | src/reexec-snapshot.ts:1-7 | with young records, an id is held nowhere and turned away iff it has no record and its replay is refused |
| Handover.BootBringsOnlyTheFile | src/agent-host.ts:1857-1901 | a process that has only loaded its file holds no id that the file does not have |
| Handover.FilterSeen | src/main.ts:2984-2985 | the saved ids are the seen ones without the lost ones, in order |
| Lives.WholeLife | src/main.ts:460-475 | boot, any calls, handover, boot: as long as the rewrites of the spool file work during the life, the next process finds what the handover law says of where the agent stood at its end |
| Lives.CollectedArrivesIff | src/agent-host.ts:1950-1989 | the first flush of the next process hands a willing runner, in order, everything collected if it holds the key it was sealed under, and nothing of it otherwise; then what still opens of the spool before |
| Lives.IdArrivesIff | src/agent-host.ts:1950-1989 | a collected id reaches the next runner, from the spool or by its replay, iff the key crosses over, or the id was not seen, was lost elsewhere, or the list no longer counts |
| Hosting.AgentHost.Pause | src/agent-host.ts:1386-1396 | pausing takes the queue back in front of the pause queue |
| Hosting.AgentHost.Resume | src/agent-host.ts:1398-1404 | resuming releases the pause queue, and reports how many pushes it made |
| Hosting.AgentHost.SegurarNaPausa | src/agent-host.ts:1415-1426 | the pause queue keeps the newest 200 |
| Hosting.AgentHost.LiberarPausa | src/agent-host.ts:1430-1461 | the release, with the gate, the drain and the cases that keep the queue |
| Hosting.AgentHost.HoldItemForDrain | src/agent-host.ts:1716-1724 | an id is held once; the turn in flight goes in front |
| Hosting.AgentHost.StartDrain | src/agent-host.ts:1729-1743 | every agent of the host goes through its drain step |
| Hosting.AgentHost.HoldInFlightForShutdown | src/agent-host.ts:1750-1765 | every agent's turn in flight is re-held |
| Hosting.AgentHost.SendMessage | src/agent-host.ts:1576-1655 | one send is the custody step of its agent and leaves the others alone, but for expiry |
| Hosting.AgentHost.QueueDeliver | src/agent-host.ts:1276-1350 | a batch is delivered in order, with what the hook retries in between, and exactly the accepted positions are acknowledged |
| Hosting.AgentHost.OfferMessage | src/agent-host.ts:1688-1694 | a push with the calls of the hook inside it |
| Hosting.AgentHost.RemoverDaFilaViva | src/agent-host.ts:1165-1189 | the first holder that has the id loses it, and the answer says whether one had |
| Hosting.AgentHost.Stop | src/agent-host.ts:1052-1067 | stopping is the custody step; a runner that was there stays, and is stopped |
| Hosting.AgentHost.Spawn | src/agent-host.ts:495-552 | a spawn that replaces the runner is the custody step |
| Hosting.AgentHost.Reconnect | src/agent-host.ts:495-541 | a spawn that finds its runner alive only restores the pause |
| Hosting.AgentHost.SpawnDone | src/agent-host.ts:1011-1023 | the end of a spawn clears the stop and flushes |
| Hosting.AgentHost.OnExit | src/agent-host.ts:893-903 | an exiting runner is forgotten |
| Hosting.AgentHost.QueueForget | src/agent-host.ts:1464-1468 | forgetting empties the retained queue and says how much it held |
| Hosting.AgentHost.PersistSpool | src/agent-host.ts:1991-2006 | the spool file shows what memory holds, or stays as it was when the write fails |
| Hosting.AgentHost.DeliverSpoolFor | src/agent-host.ts:1950-1989 | the spool delivery; a file that showed what waits still does, if it can be written |
| Hosting.AgentHost.OnRunnerQueueChanged | src/agent-host.ts:1691-1694 | a queue change retries the spool, and the file follows |
| Hosting.AgentHost.FlushInboundBuffer | src/agent-host.ts:1658-1694 | the flush, with the retries inside its pushes, is the custody step, and the file follows |
| Hosting.AgentHost.WriteReexecSpool | src/agent-host.ts:1787-1847 | each agent's part of the file is its records, the reported ids are exactly the unsealable ones, and memory is emptied only after a write; how long each record may wait is stated by ReexecAges.PlaceDecidesTheWait |
| Hosting.AgentHost.LoadReexecSpool | src/agent-host.ts:1857-1908 | each agent is booted from its lines of the file, and the file then shows what waits, if it can be rewritten |
| QueueRetained.RetainedAccounts | src/queue-retained.ts:110-134 | retaining accounts for every item: accepted, duplicate or evicted; the queue is the newest 200 of old plus accepted; keys stay distinct |
| QueueRetained.SplitByAcceptance | src/queue-retained.ts:117-120 | the new items split into accepted and duplicates |
| QueueRetained.FreshStaysValid | src/queue-retained.ts:55-72 | expiry keeps keys distinct |
| QueueRetained.PodeDevolverIsExact | src/queue-retained.ts:161-169 | giving items back keeps the queue valid iff they fit and share no key with it or each other |
| QueueRetained.DevolverCanDuplicate | src/queue-retained.ts:161-169 | otherwise a key can be present twice |
| QueueRetained.ReterLote | src/queue-retained.ts:117-130 | the retention loop computes the queue, the key set and the three counts |
| QueueRetained.FilaRetida.Reter | src/queue-retained.ts:110-134 | retaining for one agent, after expiring everybody's old items |
| QueueRetained.FilaRetida.Expirar | src/queue-retained.ts:55-72 | expiry leaves exactly the items within the TTL, for every agent |
| QueueRetained.FilaRetida.Tomar | src/queue-retained.ts:152-158 | taking returns the queue in order and empties it |
| QueueRetained.FilaRetida.Devolver | src/queue-retained.ts:161-169 | giving back puts the items in front; the invariant survives exactly under the stated condition |
| QueueRetained.FilaRetida.TomarEDevolver | src/queue-retained.ts:152-169 | taking and giving back restores the queue |
| QueueRetained.FilaRetida.Esquecer | src/queue-retained.ts:172-178 | forgetting reports how much there was |
| InboundDedup.RemembersNewestAccepted | src/inbound-dedup.ts:32-47 | an id is remembered exactly while it is among the newest maxSeen accepted ones |
| InboundDedup.SecondAcceptanceNeedsFullWindow | src/inbound-dedup.ts:32-53 | between two acceptances of an id at least maxSeen other distinct ids were accepted |
| InboundDedup.SnapshotReplays | src/inbound-dedup.ts:59 | marking a snapshot in a fresh deduper rebuilds it |
| InboundDedup.DeliveryDeduper.MarkSeen | src/inbound-dedup.ts:38-47 | the set and the order are those of the history, oldest out above the cap |
| InboundDedup.DeliveryDeduper.Accept | src/inbound-dedup.ts:48-53 | accepts exactly what is not remembered |
| InboundDedup.DeliveryDeduper.IsSeen | src/inbound-dedup.ts:35-37 | answers from the newest accepted ids |
| InboundDedup.DeliveryDeduper.Snapshot | src/inbound-dedup.ts:59 | the remembered ids, oldest first, without repetition |
| InboundDedup.AgentInboundBuffer.Push | src/inbound-dedup.ts:92-100 | the buffer keeps its newest live messages, one per id, and counts what it evicts |
| InboundDedup.PushedIsNewest | src/inbound-dedup.ts:96 | an arrival that is no second copy is the newest of the buffer, with the age it came with, or now |
| InboundDedup.AgentInboundBuffer.Drain | src/inbound-dedup.ts:101-106 | draining returns the live messages in order |
| InboundDedup.AgentInboundBuffer.Remove | src/inbound-dedup.ts:111-119 | removes the first message with the id, if any |
| InboundDedup.NonEmptyIdsKeepsAll | src/inbound-dedup.ts:151-160 | a list without empty ids is read back whole |
| KeyedFifo.RunIsNewestEntered | src/queue-retained.ts:117-130 | the content of a bounded keyed queue is the newest cap of all that ever entered |
| KeyedFifo.ReentryNeedsCapOthers | src/inbound-dedup.ts:38-52 | a key enters again only after cap other keys |
| KeyedFifo.ReplayRebuilds | src/main.ts:469-472 | replaying a content rebuilds it |
| KeyRing.EveryLifeIsMirrored | src/daemon-crypto.ts:200-347 | after any sequence of remembered keys, with any rings, uses and restarts, while the key file can be written, RAM holds the backward walk of its entries, and a restart rebuilds it: all of it iff every entry is sealed, else what the sealed entries reach |
| KeyRing.RestartFindsLastWritten | src/daemon-crypto.ts:283-347 | in any life, failed writes included, a restart finds the ring that was written last |
| KeyRing.RememberMirrors | src/daemon-crypto.ts:318-347 | remembering a key keeps that, with any ring from the server or none |
| KeyRing.ReloadedExactIff | src/daemon-crypto.ts:283-301 | a ring is rebuilt as it was iff all its entries are sealed; in any case its keys are the active one and the walk of the sealed entries |
| KeyRing.WalkIsChain | src/daemon-crypto.ts:228-250 | the backward walk is the longest chain in which each entry hands over a 32-byte key to the holder of the next newer one |
| KeyRing.HeldKeysAreWhole | src/daemon-crypto.ts:228-261 | every key held is 32 bytes long, and the older ones are handed over by the entries of the ring, one after the other |
| KeyRing.SealedOnlyFilters | src/daemon-crypto.ts:283-301 | what a restart leaves out of the file's ring are the entries that are not sealed, and only these |
| KeyRing.PromotionExtendsWalk | src/daemon-crypto.ts:267-280 | sealing the old key under the new one extends the walk by exactly that key |
| KeyRing.OpensExactly | src/daemon-crypto.ts:454-566 | a blob opens iff its key is held and the associated data is the same and not empty; sealed under empty data it never opens |
| KeyRing.RotationKeepsHistoryIff | src/daemon-crypto.ts:228-347 | for any server ring and any write: a rotation keeps every held key iff, without a ring, RAM is warm or nothing else was held, and with one, every held key is the new one or in its chain; a restart then finds, if the file was written, the ring as it is rebuilt, and the old file if not |
| KeyRing.RestartKeepsIff | src/daemon-crypto.ts:283-301 | a restart right after a write keeps every key iff the sealed entries alone reach each older one |
| KeyRing.ClearEntryLosesHistory | src/daemon-crypto.ts:228-301 | a server ring with an entry that is not sealed: the rotation keeps the first key, and the next restart loses it |
| KeyRing.ColdRotationLosesHistory | src/daemon-crypto.ts:283-347 | key, restart, rotation: the first key is gone |
| KeyRing.UnopenableRingLosesHistory | src/daemon-crypto.ts:251-261 | a server ring that does not open wipes the keys of a warm RAM, and of the file |
| KeyRing.NothingForgottenIff | src/daemon-crypto.ts:267-347 | over a whole life, with any rings and any failed writes: whatever is held at some point is held at every later one, iff every rotation keeps what is held and every restart finds it in what was written last |
| KeyRing.HeldKeysStayHeld | src/daemon-crypto.ts:267-347 | through such steps what is held stays held |
| KeyRing.HistoryStaysReadable | src/daemon-crypto.ts:454-566 | so a blob sealed under any formerly active key still opens under its own associated data; sealed with data it opens under no other, sealed without it opens under any |
| ProjectKeyStore.ProjectKeyStore.NeverAliased | src/daemon-crypto.ts:251-261 | no two stored buffers are one, across projects and ranks |
| ProjectKeyStore.ProjectKeyStore.ZeroOlder | src/daemon-crypto.ts:251-253 | zeroing the replaced older keys reaches neither the project's active key nor anything of another project |
| ProjectKeyStore.ProjectKeyStore.ZeroRetired | src/daemon-crypto.ts:334 | zeroing a retired active key changes nothing that is stored |
| ProjectKeyStore.ProjectKeyStore.PromoteActiveToRing | src/daemon-crypto.ts:267-280 | the ring receives a copy; the active buffer stays |
| ProjectKeyStore.ProjectKeyStore.ImportInto | src/daemon-crypto.ts:228-261 | importing replaces older keys and entries by the walked ones |
| ProjectKeyStore.ProjectKeyStore.WalkRing | src/daemon-crypto.ts:228-250 | the backward walk into fresh buffers |
| ProjectKeyStore.ProjectKeyStore.RememberProjectKey | src/daemon-crypto.ts:318-347 | the buffers hold what the value model says, on disk too when the write works |
| ProjectKeyStore.ProjectKeyStore.RestoreFromDisk | src/daemon-crypto.ts:283-301 | the key file yields the active key and the walk |
| ProjectKeyStore.ProjectKeyStore.OpenForProject | src/daemon-crypto.ts:545-566 | active key first, then the older ones |
| MemoryBudget.DroppedDoesNotFit | src/memory-utils.ts:130-165 | maximality: no dropped entry would fit into what remains at the end |
| MemoryBudget.OutputIsDominant | src/memory-utils.ts:130-165 | dominance of the output: the dropped entries of a block are those at some positions of its queue, in order, the kept ones the rest, and no position is dropped while a later one with an entry at least as long is kept |
| MemoryBudget.KeptDominates | src/memory-utils.ts:130-165 | keeping a position means keeping every earlier one of its block with an entry that is not longer |
| MemoryBudget.KeptAndDroppedByPosition | src/memory-utils.ts:130-165 | what is dropped are the entries at the positions that neither pass keeps, in order; what is kept are the others |
| MemoryBudget.UsedIsKeptAndBounded | src/memory-utils.ts:130-174 | used is the total kept, within the budget unless one oversize entry is the only non-empty one kept |
| MemoryBudget.EntriesConserved | src/memory-utils.ts:111-174 | every entry is kept or dropped, as often as it occurs, in its own block |
| MemoryBudget.CountConserved | src/memory-utils.ts:111-174 | placed and dropped add up to the input |
| MemoryBudget.SharesGuaranteedIff | src/memory-utils.ts:57-158 | whatever list of entries has a given first non-empty one, no block within its share loses anything, iff that entry is of the last block or leaves room for the shares of the blocks after its own |
| MemoryBudget.TightEntriesLose | src/memory-utils.ts:130-158 | when it leaves too little room, the list that fills each later block to its share with an entry of that block's kind loses one of them |
| MemoryBudget.GuaranteedShares | src/memory-utils.ts:57-158 | in the allocator: then a block within its share loses nothing |
| MemoryBudget.SharesAreFair | src/memory-utils.ts:57-78 | the five shares are 30, 20, 10, 10 and 30 hundredths of the budget, rounded down, and never exceed it |
| MemoryBudget.RankedIsStableSort | src/memory-utils.ts:93-121 | ranking is a stable sort in which every entry whose source is "user:" and a name stands before every one without |
| MemoryBudget.BlocksPartition | src/memory-utils.ts:81-120 | every entry goes to its own block and no other |
| MemoryBudget.BlockOf | src/memory-utils.ts:81-83 | the block is the one that lists the kind, the last one otherwise |
| MemoryBudget.PlaceInBlock | src/memory-utils.ts:130-147 | one pass over a queue places what enters and keeps the rest in order |
| MemoryBudget.FirstPass | src/memory-utils.ts:149-155 | guaranteed shares, block by block |
| MemoryBudget.SecondPass | src/memory-utils.ts:156-162 | lent slack, block by block |
| MemoryBudget.ApplyMemoryBlockBudget | src/memory-utils.ts:111-174 | sections, dropped count and used are those of the two passes |
| QueueLive.MontarSnapshot | src/queue-live.ts:145-191 | told from the pending messages and the records alone: one item for each id met first that has a record, with its fields, or that is its message's own and may be shown, in that order; of these the longest prefix within the caps, truncated iff something was cut, and as many omissions as own ids withheld before the cut |
| QueueLive.SnapshotTold | src/queue-live.ts:145-191 | why: the visits of the loop are the ids of the pending messages, message by message, its own first |
| QueueLive.RecordIsRight | src/queue-live.ts:80-134 | a record has the frame's time, silence and origin; it is the frame as it came, if that came sealed in one piece, else the final text and images, sealed one by one in a keyed project; there is none iff one of them cannot be sealed or an image is empty |
| QueueLive.SnapshotIsSafe | src/queue-live.ts:145-191 | bounded, no real id twice, and in a keyed project every text sealed where the records' texts are, and every image where their images are |
| QueueLive.NoIdTwice | src/queue-live.ts:160-184 | no real id is shown twice, nor any made-up one |
| QueueLive.EverythingSealed | src/queue-live.ts:168-180 | in a keyed project every content shown is sealed where the records' contents are, and every image where their images are |
| QueueLive.RecordsOfKeyedProjectAreSealed | src/queue-live.ts:111-134 | a record of a keyed project never carries a clear text; its images are sealed iff the frame has parts, came in clear, or had no clear image |
| QueueLive.SealedFrameWithClearImage | src/queue-live.ts:111-134 | a sealed frame without parts keeps the clear image it came with |
| QueueLive.CutIsLongest | src/queue-live.ts:160-167 | a prefix that fits and cannot be extended is the longest that fits |
| GrokSweep.IncrementalIsBatch | src/agent-runner.ts:254-299 | however appends and sweeps interleave, short and failed reads included, the cursor stands between lines and what was reported is what one pass over the bytes behind it yields, each id once, in order |
| GrokSweep.CaughtUp | src/agent-runner.ts:254-299 | at the end of the file the log is that of a single pass |
| GrokSweep.FullSweepCatchesUp | src/agent-runner.ts:266-284 | a full sweep reaches the end iff the file ends with a newline or what follows its last one trims to a non-empty complete text |
| GrokSweep.StepIsTold | src/agent-runner.ts:274-296 | a sweep in a run: from the last newline of what it read, how far the cursor moves and what is parsed; the ids met grow by the parsed ones, those reported by the new ones |
| GrokSweep.ReachesEndIff | src/agent-runner.ts:279-285 | the cursor reaches the end of what was read iff that ends with a newline or with a non-empty complete text |
| GrokSweep.SweepParsesWhatItConsumes | src/agent-runner.ts:274-285 | whole lines plus a complete tail parse as the consumed bytes do |
| GrokSweep.CutAtBoundary | src/agent-runner.ts:274-285 | cut between lines, the parts yield together what the whole yields |
| GrokSweep.ReportedExactlyOnce | src/agent-runner.ts:287-296 | every new id is reported exactly once, known ones never |
| GrokSweep.NeverReportedTwice | src/agent-runner.ts:262-296 | also after a shrink or a rewrite no id is reported twice |
| GrokSweep.Sweeper.Sweep | src/agent-runner.ts:254-299 | told from the last newline of what was read: the cursor moves over the whole lines, and to the end iff the rest trims to a non-empty complete text, which is then parsed too; every call parsed is met, what is new is reported unless priming; another path or a file that shrank is read from zero |
| GrokSweep.Sweeper.Follow | src/agent-runner.ts:254-299 | a life of the reader on one growing file, sweep by sweep on the object: it does what the run of the model does, so its log is that of one pass over the bytes behind its cursor |
| GrokSweep.Sweeper.Report | src/agent-runner.ts:286-296 | the double loop marks and reports what is new |
| ClaudeStdin.EveryRunIsSerial | src/agent-runner.ts:1165-1265 | in every run at most one message is open, messages go out in arrival order, a member's under the default mode, an owner's bypassing permissions iff auto-approval is on, and a queue exists only while something is outstanding |
| ClaudeStdin.EveryMessageRunsUnderItsMode | src/runners/turn-security.ts:78-81 | over every run: each message written for a member ran under the default mode, each for an owner bypassed permissions iff auto-approval is on, and that mode is the one that the control requests sent before it, less the refused ones, had put in force; a change on its way is the last thing sent, for a mode not in force and right for its message |
| ClaudeStdin.MemberTakenIff | src/agent-runner.ts:644-665 | a member's message is taken iff the gate is open, the process is ready, everything taken before is written or blocked, and no turn is open |
| ClaudeStdin.PinNeverMoves | src/agent-runner.ts:1201-1209 | the branch for a pin that moved is unreachable |
| ClaudeStdin.MembersNeverQueue | src/agent-runner.ts:644-665 | a member is let in only to an idle writer |
| ClaudeStdin.StepKeeps | src/agent-runner.ts:1165-1265 | every event keeps the invariant and the order |
| ClaudeStdin.DrainKeeps | src/agent-runner.ts:1260-1265 | draining an idle writer leaves nothing stuck |
| ClaudeStdin.Live | src/agent-runner.ts:1165-1265 | a whole life of the writer object under any events: serial, in arrival order, the messages it took are those of the run, and each was written under the mode in force, the right one for its sender |
| ClaudeStdin.AckMeans | src/agent-runner.ts:1198-1212 | a confirmed change writes the message that waited for it, under the mode that was asked for, the right one for its sender, and nothing else |
| ClaudeStdin.NackMeans | src/agent-runner.ts:1213-1221 | a refused one blocks that message for good, and the next in the queue becomes outstanding |
| ClaudeStdin.CloseMeans | src/runners/turns/claude.ts:299-321 | the end of a turn closes the open message, and the next in the queue becomes outstanding |
| ClaudeStdin.WriteKeeps | src/agent-runner.ts:1227-1254 | a write under the sender's mode from an idle writer keeps the invariant: one open message, under the right mode |
| ClaudeStdin.ClaudeWriter.PushUserMessage | src/agent-runner.ts:1165-1182 | a message is taken unless it is a member's and the writer is not idle; an idle writer makes it outstanding at once, a busy one queues it last; the writer stays serial and in order |
| ClaudeStdin.ClaudeWriter.SendClaudeMessage | src/agent-runner.ts:1190-1223 | from an idle writer the message becomes the one outstanding: written if the mode in force is the right one for its sender, else waiting for that mode |
| ClaudeStdin.ClaudeWriter.ModeConfirmed | src/agent-runner.ts:1198-1212 | exactly the message that waited is written, under the mode that was asked for, the right one for its sender; the queue stays |
| ClaudeStdin.ClaudeWriter.ModeRefused | src/agent-runner.ts:1213-1221 | that message is blocked, and the head of the queue gets its turn |
| ClaudeStdin.ClaudeWriter.DrainClaudeWriteQueue | src/agent-runner.ts:1260-1265 | an idle writer makes the head of its queue outstanding, so nothing is stuck |
| ClaudeStdin.ClaudeWriter.OnResult | src/runners/turns/claude.ts:299-321 | the open message is closed and the head of the queue gets its turn |
| PeerAncestry.ResolveAgentIdFromPid | src/privileges.ts:336-347 | the walk finds the nearest registered process among the peer and nine ancestors, or nobody when there is none; giving up on a cycle loses nothing |
| PeerAncestry.CycleHasNobody | src/privileges.ts:340-341 | a cycle without a registered process has no answer |
| PeerAncestry.AnswerIsUnique | src/privileges.ts:336-347 | the answer is determined by the process table and the registry |
| PeerAncestry.CacheAnswersForTable | src/bridge-relay.ts:689-702 | a cache of true facts never names the wrong agent, and a complete one names the right one |
| PeerAncestry.PeerConnection.WalkParents | src/bridge-relay.ts:714-729 | true only with a complete chain; an unreadable hop is not kept |
| PeerAncestry.PeerConnection.ResolveOnce | src/bridge-relay.ts:678-702 | one attempt: the right answer, or a read of it failed; at most eleven reads |
| PeerAncestry.PeerConnection.Resolve | src/bridge-relay.ts:660-676 | one request: nobody or the right agent; the right one whenever the walk completed, or at most two of the reads it made failed; at most 33 reads |
| PeerAncestry.PeerConnection.Serve | src/bridge-relay.ts:653-702 | a whole connection under any pattern of failed reads and any registries: never a wrong agent |

## Left out

- Sockets, HTTP, process spawning and killing, git, the dashboard and log text: plumbing.
- Real cryptography, base64 and JSON: ideal sealing, and abstract total functions for parsing and digests; collisions of the digest are allowed.
- The runner is an environment: its own queueing, coalescing and per-message drivers appear only as answers to pushes and as its own moves. A loop-stop message, which hands the queue back inside a push, is two steps here.
- Custody.Send: images and the sender's details travel inside the content; only the owner-or-member bit is separate, because the gate reads it.
- CustodyLaws.EveryRunBalances: a queue change that the runner reports from inside a push happens inside that push; one that it reports at the end of an operation or between two, as when a message is removed from its queue, is the next step, `DoQueueChanged`.
- CustodyLaws.SpawnBalances: a spawn is one step; what happens while it waits for the process is modelled by the runner's moves before or after it.
- CustodySpool.SpoolComesFirst: runs without the steps that overtake the spool, which CustodySpool.OvertakesIff pins down; while an agent is paused or drains, order is stated per holder.
- Handover.SwitchProcess: what is said of an id on the file is that its record waits if it is young and sealed; an old record that has outlived its TTL may also be lost to its key or to the cap of the retained queue, which Reexec.BootBalances counts.
- Hosting.AgentHost.FlushInboundBuffer: one flag says whether the spool file can be written during a call; a call whose several rewrites fare differently is not modelled.
- Lives.CollectedArrivesIff: for a runner that takes what is readable and for records that are young; for the others CustodyPushes.PushSpoolExact and Reexec.BootBalances say what becomes of them.
- Order between the pre-spawn buffer, the pause queue and spool leftovers: the code keeps none, so order is stated per holder.
- Hosting.AgentHost.FlattenSpool: the order of agents in the spool file is left open; only each agent's own order matters.
- QueueRetained.FilaRetida.Devolver: keeps the invariant only under the stated condition; its caller `entregarFilaRetida` is not called in production and is not modelled.
- Reexec.TwoProcessLedger: the runner's queue counts as lost at the handover; in the daemon a drain and `holdInFlightForShutdown` move it out before.
- The retention TTL can be set by an environment variable (`src/queue-retained.ts:52`); the model has its default.
- ClaudeStdin.EveryRunIsSerial: for a writable stdin and no restart, as the code's own serialisation assumes; the unaccepted-message watchdog and the restart buffer are not modelled.
- GrokSweep.IncrementalIsBatch: for a file on which a line that is already complete JSON is not extended and blanks around JSON do not matter; the code cannot tell such a line from a finished one. Bytes are not decoded here; the parser is a function of bytes.
- PeerAncestry.PeerConnection.Resolve: for a fixed process table, as one connection assumes; the registry may change between requests.
- MemoryBudget.SharesAreFair: shares are exact percentages; the rounding of floating-point products is not modelled. Text length is its number of characters.
- `applyMemoryCharBudget` (`src/memory-utils.ts:181`): the legacy path.
- `forgetProjectKey` and `forgetAllProjectKeys`: only easy members.
- QueueLive.MontarSnapshot: the size of an item is an abstract measure, as the protocol package that defines it is not part of this model.
- The line framer of `src/mcp-tool-proxy.ts` and the semaphore of `src/graph-llm-shim.ts`: small and independent of the rest.
- The retry, self-update and runner-policy gates, tool definitions and scanners: only easy members.
