# K-P2PLab: a verified model of its protocols and analyses

K-P2PLab runs peer-to-peer experiments with a Controller and one Agent per host. Its
correctness rests on a few small protocols that must survive crashes and concurrency, and on
streaming analyses that must not lose or distort what was measured. This project models them
in Dafny and proves what they are for. `dafny verify dfyconfig.toml` checks everything.

## The parts

**Telemetry spool** (`Sequences`, `TelemetryCodec`, `DeliveryQueue`, `SpoolRecovery`, `SpoolHistory`,
`SpoolStorage`, `SpoolMemory`, `Spool`, `SpoolRestart`, `TelemetryDelivery`, `TelemetryDrain`, `RequestBody`,
`FrameFormat`, `JournalRecovery`). The Agent stores
events in append-only segments with a CRC-framed acknowledgement journal each. The disk is
bytes: an interrupted write leaves any prefix of its data, and every storage operation may
fail with or without having taken effect; an unlinked file may come back in a crash until its
directory is synced. Recovery is a function of the bytes. A ghost history explains the bytes of
every directory the spool can produce and gives every stored event its origin: its number among
the accepted events, or its place in a numbered batch whose append failed; it also keeps which
of these are acknowledged and which acknowledgement, if any, is in doubt. Every operation states
that each disk image it passes through recovers to the abstract queue. A ghost count of failed
storage steps gives failures their cause. An operation stops at its first failed storage step, so
a crash inside an operation is a failed step followed by a restart.

**Admission, fences and retirement** (`AgentAdmission`, `AdmissionOutcomes`, `HistoryReplay`, `ReplayProgress`, `Heartbeat`). State
machines with one action per lock region or storage operation; the theorems are about every
sequence of actions. Actions out of turn do nothing. Beside what no interleaving can break, every machine
has theorems about what an undisturbed operation achieves, and exactly when.

**Host reboot** (`HostReboot`, `RebootOperations`) on the Agent and on the Controller, **batch
admission** (`BatchAdmission`, `BatchMembers`, `BatchPlans`, `BatchAttempts`), **analysis publication** (`AnalysisSlots`) and
**archiving** (`RunArchive`, `ArchiveProgress`). A file replaced by rename is durable, visible but possibly lost in
a crash, or unchanged (`AtomicFile`).

**Analyses**: betweenness centrality (`Sums`, `GraphPaths`, `Dependency`, `GraphSearch`,
`Betweenness`, `CentralityBounds`, `Adjacency`), message paths (`MessagePaths`), event bins (`Buckets`,
`StreamingBins`), bandwidth (`SetSums`, `Bandwidth`, `BandwidthTimeline`) and score timelines
(`ScoreTimeline`). Where the program computes with floating point, the model computes with real
numbers; bandwidth counters are bounded like 64-bit integers, other integers are unbounded.

Idealised: digests and request hashes identify contents; random identifiers, boot identities
and start times are fresh; locks are atomic regions; a rename is atomic and a sync honest.

## One promise that does not hold for old data

`internal/controller/batch_admission.go:12-14` promises that the current attempt never falls back
to an old one. It holds for every group that this version has admitted (`BatchAttempts.NeverFallsBack`).
For a group whose retry was made before the batch record existed it fails once runs have been
appended: the record then names current attempts, so deletion no longer derives the retired ones
from the stored runs. `BatchAttempts.LegacyFallsBack` is such a group, and
`BatchAttempts.DeletionRevives` gives the exact condition.

## Model

| member | source | states |
|---|---|---|
| `TelemetryCodec.SplitJoined` | internal/agent/telemetry_log.go:185-242 | Reading lines back undoes writing them: lines followed by any newline-free tail split into exactly those lines and that tail. |
| `TelemetryCodec.PrefixOfLines` | internal/agent/telemetry_log.go:88-125 | Any prefix of a written batch is some whole lines followed by a torn one without a newline. |
| `TelemetryCodec.FrameRoundTrip` | internal/agent/telemetry_log.go:127-183 | An acknowledgement frame (magic, big-endian count, CRC-32) is valid and reads back the count it was written with. |
| `FrameFormat.FrameLayout` | internal/agent/telemetry_log.go:127-137 | Byte by byte, a frame is four bytes of magic, the count and then the checksum of both, each most significant byte first. |
| `FrameFormat.ValidIsWritten` | internal/agent/telemetry_log.go:139-183 | A frame that the reader accepts is the very frame that is written for its count. |
| `FrameFormat.CheckValue` | internal/agent/telemetry_log.go:127-137 | The checksum is CRC-32 as IEEE defines it: it has the standard check value. |
| `FrameFormat.DamageIsNoticed` | internal/agent/telemetry_log.go:139-183 | Whichever single byte of a valid frame changes, the reader no longer accepts it. |
| `JournalRecovery.JournalDecides` | internal/agent/telemetry_log.go:139-183 | For any bytes: a journal is accepted exactly when it is not too long for its segment and consists of advancing valid frames within the count, followed by at most one spoilt frame; and then the last valid frame is what counts. |
| `JournalRecovery.SegmentDecides` | internal/agent/telemetry_log.go:139-242 | For any bytes of log and journal: recovery reads the segment exactly when it is complete readable lines with a torn tail and such a journal, and refuses everything else. |
| `SpoolRecovery.RecoverJournal` | internal/agent/telemetry_log.go:139-183 | On an explained journal the reader finds the last complete frame, whether the tail is torn, complete or absent, and never reports corruption. |
| `SpoolRecovery.RecoverLines` | internal/agent/telemetry_log.go:185-242 | On an explained log the reader finds exactly the committed events and a whole-event prefix of the interrupted batch, and calls every line readable. |
| `SpoolRecovery.InvariantIsCrashSafe` | internal/agent/telemetry_spool.go:72-193 | Whatever step was interrupted, and whichever unsynced deletions a crash undoes, the directory recovers: what it yields holds the accepted events from some k on, exactly these, in order and each once, where k is at least what is acknowledged for certain and at most that plus what the one acknowledgement still in doubt covers; every other event is a named event of a recorded failed batch, each at most once and none that is acknowledged for certain. |
| `SpoolRecovery.AcknowledgedNeverReturn` | internal/agent/telemetry_spool.go:244-282 | What that accounting means for each recovered event: an accepted one is beyond the first k and is that very event; any other is the event at its place in a failed batch and is not among those acknowledged; no origin occurs twice. So nothing acknowledged for certain returns, whether its batch was accepted or failed. |
| `SpoolRecovery.KeepReturned` | internal/agent/telemetry_spool.go:284-296 | Whatever segments come back because their deletion was not synced, the directory is still explained, with the same queue: a segment is deleted drained, and its journal stays until the deletion is durable. |
| `DeliveryQueue.RecoveredSettled` | internal/agent/telemetry_spool.go:72-119 | If the acknowledgement in doubt took effect, all segments in name order hold exactly the accepted events behind it, however many drained segments lie between. |
| `DeliveryQueue.KeepAccept` | internal/agent/telemetry_log.go:53-86 | Appending to the newest segment appends to the whole queue. |
| `SpoolHistory.KeepStray` | internal/agent/telemetry_log.go:91-125 | An append cut off after any number of bytes, over any earlier torn tail, leaves a directory that is still explained, with the batch on record as failed. |
| `SpoolHistory.KeepTried` | internal/agent/telemetry_log.go:127-137 | An acknowledgement frame cut off after any number of bytes leaves a directory that is still explained, with one acknowledgement in doubt. |
| `SpoolHistory.KeepSettled` | internal/agent/telemetry_log.go:127-183 | An acknowledgement that is known to be durable leaves nothing in doubt; the events of failed batches that it covers are on record as acknowledged, and no segment, not even one that may come back, would deliver them again. |
| `SpoolHistory.KeepAdopted` | internal/agent/telemetry_log.go:205-242 | Whole events of an interrupted batch that recovery keeps are delivered like any other, still marked as events of that batch; the accepted events are unchanged. |
| `SpoolHistory.KeepUnlinkedLog` | internal/agent/telemetry_spool.go:284-291 | A drained segment that is unlinked without a sync leaves a directory that is explained whether or not the segment comes back. |
| `SpoolStorage.SpoolDirectory.CreateLog` | internal/agent/telemetry_spool.go:54-71 | A new segment appears whole or not at all; success makes its events accepted, failure records them as a failed batch, and the disk in between recovers. |
| `SpoolStorage.SpoolDirectory.AppendLog` | internal/agent/telemetry_log.go:91-125 | Truncate, write, sync: success appends exactly the batch; any failure leaves a prefix of it behind the committed events and records the batch as failed; the disk in between recovers. |
| `SpoolStorage.SpoolDirectory.AppendAck` | internal/agent/telemetry_log.go:127-137 | A journalled acknowledgement is certain on success and in doubt on failure, and the disk in between recovers within exactly those bounds. |
| `SpoolStorage.SpoolDirectory.TruncateAck` | internal/agent/telemetry_log.go:139-183 | Cutting a torn frame off makes the acknowledgement certain not to have happened: the bounds of recovery are again what is acknowledged for certain. |
| `SpoolStorage.SpoolDirectory.DeleteSegment` | internal/agent/telemetry_spool.go:284-296 | Both files of a drained segment are gone on success, beyond a crash; on failure the segment is untouched, unlinked but able to come back, or gone with its journal left; the queue and every disk image stay as they were. |
| `SpoolMemory.PendingIsAccepted` | internal/agent/telemetry_spool.go:246-282 | What awaits delivery, without events of unconfirmed batches, is exactly the accepted events that are not acknowledged. |
| `SpoolMemory.PendingAccounts` | internal/agent/telemetry_spool.go:246-282 | Besides these, only named events of failed batches await delivery, each at most once and none that is acknowledged. |
| `SpoolMemory.RecordLocates` | internal/agent/telemetry_window.go:94-157 | Record i of the queue locates, in its segment file, exactly the bytes of event i. |
| `Spool.TelemetrySpool.EncodeBatch` | internal/agent/telemetry_log.go:34-49 | Encoding succeeds iff every event is within the size limit, and then gives the lines, the place of every event and the byte total. |
| `Spool.TelemetrySpool.Append` | internal/agent/telemetry_log.go:30-86 | Success puts exactly these events behind the queue and makes them accepted; they go to the active segment if it stays within the rotation size, and otherwise begin one whose stamp is the clock or one more than the last, whichever is later. Failure happens only when the batch is too large or storage failed; it records the batch as failed and leaves the queue as it was. Every disk image on the way recovers to the old queue and nothing else but events of failed batches and of this one. |
| `Spool.TelemetrySpool.Acknowledge` | internal/agent/telemetry_spool.go:246-282 | Removes a prefix across segments; a count within the queue fails exactly when storage fails, and then exactly the committed count is acknowledged for certain, nothing behind it is touched, and what may be in doubt is the next part of the requested prefix or what was in doubt before; after success nothing is. The byte counter stays the sum of pending sizes, and no disk image returns an event that was acknowledged before or loses one beyond the requested count. |
| `Spool.TelemetrySpool.RemoveSegment` | internal/agent/telemetry_spool.go:284-296 | Success, which only a storage error prevents, leaves neither file of the drained segment, and it cannot come back; the queue and what any disk image recovers to are unchanged at every step. |
| `Spool.TelemetrySpool.MarshalPrefix` | internal/agent/telemetry_window.go:94-157 | Gives the body of a non-empty prefix within all limits that one more event would break, or says that nothing waits, that the first event alone is too large, or, exactly when a storage step failed, that storage failed; the queue does not change. |
| `Spool.TelemetrySpool.SelectWindow` | internal/agent/telemetry_window.go:107-123 | Selects no event iff the first alone exceeds the body limit, otherwise a maximal prefix within the event and byte limits. |
| `SpoolRestart.ScanJournalFile` | internal/agent/telemetry_log.go:139-183 | The frame loop computes the recovery function of journals, including every refusal. |
| `SpoolRestart.ScanLines` | internal/agent/telemetry_log.go:185-242 | The line loop reads exactly the complete lines iff all are readable, and finds where the torn tail starts. |
| `SpoolRestart.RecoverSegment` | internal/agent/telemetry_spool.go:121-191 | Repairs one segment to what its bytes recover to, or refuses only what is corrupt, or reports an error exactly when a storage step failed; no other segment is touched, no event changes its origin, and an acknowledgement in doubt is resolved one way or the other. |
| `SpoolRestart.NeverRefused` | internal/agent/telemetry_spool.go:72-119 | A directory that the spool can have produced is never refused. |
| `SpoolRestart.Open` | internal/agent/telemetry_spool.go:72-119 | Opening never refuses and fails only when a storage step fails; it yields exactly the events that the bytes recover to, which are the accepted and unacknowledged events of all earlier runs in order, and besides them only named, unacknowledged events of failed batches. The acknowledgement in doubt, if there was one, has taken effect as a whole or not at all, and none is in doubt afterwards. |
| `SpoolRestart.ReleaseIdle` | internal/agent/telemetry_log.go:275-298 | When nothing waits, neither file of the active segment or of one left to be deleted remains, and neither can come back; it fails only when a storage step fails, and even then the directory stays recoverable. While something waits, nothing changes. |
| `TelemetryDelivery.Delivering.Enqueue` | internal/agent/agent.go:1018-1053 | A batch goes behind the queue as a whole, the events in flight staying at its head, or is recorded as failed because the Agent is down, the batch is too large or storage failed. |
| `TelemetryDelivery.Delivering.Send` | internal/agent/telemetry_window.go:46-67 | A request carries a maximal prefix of the queue within the limits; none is sent only if one is out, nothing waits, the first event does not fit or storage failed. The queue is unchanged. |
| `TelemetryDelivery.Delivering.Answer` | internal/agent/telemetry_window.go:68-88 | Only a positive answer to a request that arrived acknowledges: all of that request, or a prefix of it if storage failed. Acknowledgement advances by exactly that prefix, accepted events and events of failed batches alike, and only after a storage error can one be in doubt, over the next part of the request. |
| `TelemetryDelivery.Delivering.Restart` | internal/agent/telemetry_spool.go:72-119 | After a crash of the Agent or its host the queue is the accepted events from the acknowledged ones on and unacknowledged events of failed batches; the acknowledgement in doubt took effect or did not, and no other moves; a started Agent has none in doubt; it stays down only if storage failed. |
| `TelemetryDelivery.KeepSound` | internal/agent/telemetry_window.go:46-88 | Every action of the delivery keeps that the bodies run through the accepted events without a gap, that they hold nothing else but events of failed batches, and that nothing is acknowledged, for certain or in doubt, that the Controller has not received. |
| `TelemetryDelivery.RunIsSound` | internal/agent/telemetry_window.go:46-88 | Over any run the accepted events are exactly those of the batches reported as stored, in order, and the failed batches exactly the others. |
| `TelemetryDelivery.NeverDeliveredAgain` | internal/agent/telemetry_window.go:46-88 | Over any run: once an event is acknowledged for certain, whether its batch was reported as stored or as failed, no later body holds it, through restarts and host crashes. |
| `TelemetryDelivery.SeenIsDelivered` | internal/agent/telemetry_window.go:46-88 | Every event up to the mark the Controller has reached is in one of the bodies it received. |
| `TelemetryDelivery.Run` | internal/agent/telemetry_window.go:46-88 | For every schedule of appends, sends, lost answers, storage errors, restarts and host crashes: each action has the stated effect with a cause for every failure; the received bodies run through the events reported as stored in order without a gap and hold nothing else but events of batches reported as failed; and one more crash loses nothing but what the one acknowledgement in doubt covers, all of which the Controller has seen, and returns nothing acknowledged. |
| `TelemetryDrain.DrainDecides` | internal/agent/telemetry_window.go:46-123 | While requests arrive, answers are positive and storage works, as many rounds as there are events deliver and remove exactly the events before the first that fits in no request; so the queue empties if and only if every event fits, and an event that is stored but too large to send blocks it. |
| `RequestBody.JoinedPlaces` | internal/agent/telemetry_window.go:125-157 | Element i of a body lies at the total size of the elements before it and their commas, and a comma or the end follows it. |
| `Heartbeat.SendBatches` | internal/agent/heartbeat.go:68-116 | Delivered batches concatenate to a prefix of the inventory, to all of it on success; every body is within the limit and would exceed it with the next peer, and no batch is empty unless the inventory is; each failure has its cause. |
| `AgentAdmission.CommitIsSound` | internal/agent/history.go:102-179 | When the revision has not moved and stop-all is not active, what a create has read from disk together with what is in memory is enough: its generation is beyond the effective fence and its identity was never admitted. |
| `AdmissionOutcomes.CommitDecides` | internal/agent/history.go:102-179 | The converse too: when the revision has not moved since the reads, the commit admits the peer exactly when stop-all is quiet, its generation is beyond the effective fence, its identity was never admitted and there is room; otherwise no process is added. |
| `AdmissionOutcomes.CreateDecides` | internal/agent/agent.go:516-674 | From every reachable state, a create that nothing disturbs between its first read and its commit is admitted under exactly these conditions, with the peer on the heap under its request; with any one missing the heap does not grow. |
| `AdmissionOutcomes.RequestDecides` | internal/agent/agent.go:516-674 | The same for a whole request of a new identity: admitted exactly when the Agent is open, the generation is beyond the fence and there is room. |
| `AgentAdmission.ReplayLearns` | internal/agent/create_replay.go:34-73 | A replay succeeds only with the process, in memory or retired, that was admitted under that identity with that content. |
| `AdmissionOutcomes.ReplayDecides` | internal/agent/create_replay.go:34-73 | From every reachable state, a repeated request whose identity was admitted is answered with that very process if it was accepted with the same content, waits for it while it is pending, and is refused otherwise; a new identity goes on to be admitted. |
| `AgentAdmission.SaveFenceFacts` | internal/agent/history.go:87-97 | Writing a fence to disk changes neither the effective fence nor what any create has concluded, because memory still holds it. |
| `AgentAdmission.EvictFacts` | internal/agent/history.go:247-264 | A fence leaves memory only when the disk holds one at least as high, so the effective fence is unchanged. |
| `AgentAdmission.KeepPrune` | internal/agent/history.go:226-246 | Dropping retired records from memory keeps every identity remembered and invalidates whatever creates have read. |
| `AgentAdmission.KeepStep` | internal/agent/agent.go:516-674 | Every action of every thread, in any interleaving, keeps the invariant that ties memory, disk, creates in progress, retirement and stop-all together. |
| `AgentAdmission.FencesHold` | internal/agent/history.go:87-179 | Over every interleaving the effective fence of a run never falls, and a create with a fenced generation is never admitted afterwards; admitted processes keep their identity, one that has ended or was told to stop never runs again even while the removal of its container is retried, and one that is cleaned up stays so. |
| `AgentAdmission.ReachableFences` | internal/agent/history.go:87-179 | From every state that any interleaving reaches from the start, fences hold in the same sense for whatever follows. |
| `AdmissionOutcomes.FenceMoves` | internal/agent/history.go:87-179 | What each action makes of the effective fence of each run: a stop raises it to its generation if it is lower, stop-all closes every run with a peer in memory and every retired run it lists, and nothing else moves it. |
| `AgentAdmission.AdmittedOnce` | internal/agent/agent.go:516-674 | In every reachable state each identity was admitted at most once, and every success reported for it is about that one process and that content. |
| `AgentAdmission.StopIsFinal` | internal/agent/agent.go:833-876 | A stop of a generation either finds the create committed and has its peer stopping, or keeps it out forever. |
| `AgentAdmission.ReachableStop` | internal/agent/agent.go:833-876 | Wherever a run from the start has got to, a stop of a generation is final in the same sense. |
| `AgentAdmission.StopAllIsFinal` | internal/agent/api.go:147-172 | When stop-all has gone through the retired runs, no run that was ever used on this Agent admits another peer. |
| `AgentAdmission.ReachableStopAll` | internal/agent/api.go:147-172 | Wherever a run from the start has got to, so is a stop-all that has gone through the retired runs. |
| `AdmissionOutcomes.HaltMoves` | internal/agent/agent.go:833-876 | A process begins to halt exactly when its own stop or exit, a stop of its run at or beyond its generation, or stop-all reaches it. |
| `AdmissionOutcomes.StopAllCompletes` | internal/agent/api.go:147-172 | From every reachable state a stop-all can run to its end: every peer has ended or been told to, every run with a peer in memory is closed for good, and the Agent is open again. |
| `AdmissionOutcomes.RetireDecides` | internal/agent/history.go:226-246 | An undisturbed retirement writes a record of exactly the selected peers that are acknowledged and cleaned up, and drops exactly these from memory. |
| `AdmissionOutcomes.FenceRetires` | internal/agent/history.go:247-264 | A fence that is not raised meanwhile moves to the disk: memory forgets it and the effective fence stays. |
| `HistoryReplay.KeepReclaim` | internal/agent/history.go:226-246 | Retirement concurrent with a registration keeps every ended peer covered: only still acknowledged records leave memory. |
| `HistoryReplay.KeepPage` | internal/agent/history_store.go:326-363 | Reading the next page moves the cursor without passing any record by. |
| `HistoryReplay.ReplayCovers` | internal/agent/history_replay.go:17-47 | Whatever the interleaving, after a completed registration every ended peer has been reported since, is unacknowledged in memory, is in the page in flight, or is stored behind the cursor of a running replay. |
| `HistoryReplay.NothingForgotten` | internal/agent/heartbeat.go:24-59 | When the replay is over, every retired record has been reported since the registration. |
| `ReplayProgress.EndedForever` | internal/agent/history.go:226-246 | A peer that has ended is in memory or in the store ever after. |
| `ReplayProgress.BeatDecides` | internal/agent/heartbeat.go:24-59 | While peers start, change and end meanwhile, an answered heartbeat acknowledges, and makes known to the Controller, exactly the reported peers that had ended when they were copied. |
| `ReplayProgress.RetireDecides` | internal/agent/history.go:226-246 | An undisturbed retirement moves exactly the selected acknowledged records to the store. |
| `ReplayProgress.RoundDecides` | internal/agent/history_replay.go:22-47 | One heartbeat of a replay sends exactly the stored records between the cursor and the end of its page, moves the cursor there, and ends the replay exactly when nothing lies beyond. |
| `ReplayProgress.RegistrationDelivers` | internal/agent/history_replay.go:17-47 | After a registration that nothing disturbs, the heartbeats of the replay, however it is paged, report exactly the peers that ever ended, acknowledge exactly those in memory, and the replay is over. |
| `HostReboot.KeepSaveReceipt` | internal/agent/host_reboot.go:370-375 | Preparing the receipt keeps the invariant whether the write is durable, only visible or absent. |
| `HostReboot.KeepStart` | internal/agent/host_reboot.go:52-91 | A restarted Agent that drops a doubtful receipt because of a stored rejection never drops one whose helper was started. |
| `HostReboot.AtMostOneHelperPerBoot` | internal/agent/host_reboot.go:253-411 | Over every run with requests of any origin and stops of Agent or host at any step, at most one helper is started per boot, and no request is both executed and durably rejected. |
| `HostReboot.StaysPending` | internal/agent/host_reboot.go:52-91 | Until the host reboots, a running Agent keeps itself closed and holds the receipt of the operation it executed, however often it restarts. |
| `HostReboot.StartDecides` | internal/agent/host_reboot.go:52-91 | In every reachable state: an Agent that starts stays down only if it cannot read what it has to know, and once up it is closed if and only if a helper was started on this boot or an undecided receipt of this boot is kept. |
| `HostReboot.OpenAfterReboot` | internal/agent/host_reboot.go:52-91 | After the host has rebooted, whatever was under way, the Agent comes up open. |
| `HostReboot.RequestDecides` | internal/agent/host_reboot.go:253-411 | A request that nothing interrupts starts its helper exactly when it is current and readable, was not rejected before, and the Agent is up, enabled, quiet and open without a receipt of this boot; otherwise no helper starts and no receipt is written. |
| `HostReboot.RejectionDecides` | internal/agent/host_reboot.go:253-369 | A current request that cannot be carried out and was not answered before is durably rejected, and nothing else changes. |
| `HostReboot.PreparationIsTakenBack` | internal/agent/host_reboot.go:370-411 | Preparations that end before the receipt is durable are taken back: the request is rejected for good, no helper starts and the Agent is open again. |
| `RebootOperations.KeepSend` | internal/controller/host_reboot_worker.go:134-177 | A host is asked only after the record says so durably, and only by a worker that has not asked it. |
| `RebootOperations.AskedAtMostOnce` | internal/controller/host_reboot.go:155-207 | However often the Controller restarts and whatever is submitted again, each operation asks each host at most once, and no record calls a host rejected that was asked unless its Agent rejected the request. |
| `RebootOperations.ShownIsEarned` | internal/controller/host_reboot_worker.go:134-177 | In every reachable state, whatever is read or survives a crash: a host shown as requested was granted by its Agent, and one shown as rebooted has proved its new boot. |
| `RebootOperations.SubmitDecides` | internal/controller/host_reboot.go:253-325 | A new operation that is saved is on record with every host queued and a worker waiting to ask it; one that is known is only looked up. |
| `RebootOperations.HostDecides` | internal/controller/host_reboot_worker.go:134-177 | Asking one host without disturbance sends exactly one request, and every record shows what its Agent answered. |
| `RebootOperations.FinishDecides` | internal/controller/host_reboot_worker.go:43-132 | When every host has been dealt with, the operation ends on record: a host never asked is shown as rejected, one that may have been asked as unknown, and the others as they were. |
| `RebootOperations.CrashDecides` | internal/controller/host_reboot.go:155-207 | After a crash of the Controller an operation shows what its record says, a host being checked as unknown and a queued one as rejected, and nothing is asked again. |
| `BatchAdmission.PrepareReadable` | internal/controller/batch_append.go:40-97 | The record written before the runs passes all checks made when it is read back. |
| `BatchAdmission.CommitReadable` | internal/controller/batch_admission.go:121-133 | The committed record passes them too, and names every current run at its own iteration. |
| `BatchAdmission.InFlightRecovers` | internal/controller/batch_append.go:117-184 | Whatever mixture of pending runs an interrupted admission has left behind, recovery does not refuse it and brings back exactly what readers saw before. |
| `BatchAdmission.PendingInvisible` | internal/controller/batch_append.go:99-115 | Readers never see a new run of an uncommitted admission, even before recovery. |
| `BatchAdmission.CommittedView` | internal/controller/batch_admission.go:121-147 | The commit publishes exactly the pending runs, gives every run the new total and supersedes exactly the named predecessors. |
| `BatchAdmission.RecoverTwice` | internal/controller/batch_append.go:117-184 | Recovery is idempotent. |
| `BatchAdmission.RecoveryRefuses` | internal/controller/batch_append.go:117-184 | Recovery refuses exactly unreadable records and those naming a new run of another batch or total, or one that has started or left the queue. |
| `BatchAdmission.RecoverySpares` | internal/controller/batch_append.go:117-184 | Recovery touches only runs that the record names: it removes queued, never-started runs of this batch, or puts an image of such a run back, and changes nothing else in the record. |
| `BatchAdmission.BatchStore.Rollback` | internal/controller/batch_append.go:117-184 | In place, step by step: at every step recovery would still end in the same state; it refuses exactly what is not an uncommitted admission, and reports an error exactly when a storage operation failed. |
| `BatchAdmission.BatchStore.Admit` | internal/controller/batch_admission.go:15-147 | Succeeds exactly when no storage operation fails, and success is exactly the committed state; every state on the way, and every state in which a crash undoes a rename that was not synced, recovers to exactly the old view or to exactly the committed state. |
| `BatchPlans.SubmitAdmits` | internal/controller/repeat.go:80-112 | A first or repeated submission meets everything an admission relies on. |
| `BatchPlans.AppendAdmits` | internal/controller/batch_append.go:282-349 | Appending to a group whose iterations are all completed does so too, and no current attempt has one of the new iterations. |
| `BatchPlans.RetryAdmits` | internal/controller/resume.go:188-316 | So does a retry, and each new attempt names the only current attempt of its iteration. |
| `BatchPlans.ContinueAdmits` | internal/controller/resume.go:188-316 | So does a continuation, whose runs are current ones that keep their identity and never started. |
| `BatchPlans.Survey` | internal/controller/resume.go:184-200 | Accepts exactly consistent members and finds the last attempted iteration and whether an attempt broke. |
| `BatchPlans.Resume` | internal/controller/resume.go:184-315 | In terms of stored states and of what this Controller runs: a retry succeeds exactly when the metadata agrees, some member is not completed and none that claims to be active runs here; a continuation exactly when an attempt failed or was cut short and a run waits. The result is the next attempt of every unfinished member, or of every waiting run, once and in order. |
| `BatchPlans.RetryDecides` | internal/controller/resume.go:184-315 | When a retry is possible, stated without the conditions the code computes. |
| `BatchPlans.RestartIsRetryable` | internal/controller/results.go:184-205 | After a restart of the Controller every consistent batch with an unfinished member can be retried. |
| `BatchPlans.ContinueDecides` | internal/controller/resume.go:184-315 | When a continuation is possible, and that it takes exactly the never-started canceled or left-over members behind the last iteration that was tried. |
| `BatchAttempts.DeletionRevives` | internal/controller/batch_admission.go:149-251 | Deleting a run makes another attempt current again exactly under a stated condition on the record and the stored runs. |
| `BatchAttempts.NeverFallsBack` | internal/controller/batch_analysis.go:140-158 | Through every history of submissions, appends, retries, continuations, abandoned admissions, executions of runs, deletions and changes to other batches, each iteration has at most one current attempt, and one that has ceased to be current never becomes current again. |
| `BatchAttempts.AttemptTakesOver` | internal/controller/batch_admission.go:121-147 | Every attempt that was put together this way is, once committed, the current one of its iteration, and none of those it names is. |
| `BatchAttempts.FailedIsRetried` | internal/controller/resume.go:98-103 | A history in which a run is submitted, fails and is retried, with the new attempt current. |
| `BatchAttempts.LegacyFallsBack` | internal/controller/batch_admission.go:172-209 | For a group whose retries predate the record the promise fails: appending to it, with every guard of an append met, and deleting the newest attempt makes the old one current again. |
| `AnalysisSlots.KeepFull` | internal/controller/analysis_jobs.go:526-532 | Publishing into the unused slot touches nothing that any metadata, present or recoverable, points to. |
| `AnalysisSlots.SavedSurvives` | internal/controller/analysis_jobs.go:481-548 | Over every run with retries, reuse, failures and crashes between any two publications, the slot that the metadata names holds both files of the analysis it keeps available. |
| `AnalysisSlots.ServedIsGenuine` | internal/controller/analysis_jobs.go:68-82 | Whatever is served for a job was produced by that job. |
| `AnalysisSlots.PublishedIsServed` | internal/controller/analysis_jobs.go:481-548 | An idle job can be started whatever became of the one before, and if no write fails, requests are answered with the new analysis and no other, durably. |
| `AnalysisSlots.ServedForever` | internal/controller/analysis_jobs.go:68-82 | Once an analysis has completed, every loaded job serves one from then on, with both files from it, through replacements, failures and crashes. |
| `AnalysisSlots.OnlyCompletionReplaces` | internal/controller/analysis_jobs.go:481-548 | Which analysis is available changes only when another completes, or with a restart. |
| `AnalysisSlots.RestartServes` | internal/controller/analysis_jobs.go:68-82 | After a restart no job is active, and a durably completed analysis is found again whatever unsynced renames were lost. |
| `AnalysisSlots.ReuseRestores` | internal/controller/analysis_jobs.go:481-548 | A replacement that finds its sources unchanged gives way to exactly what was there. |
| `RunArchive.KeepBegin` | internal/controller/run_archive.go:542-564 | Merging what the store has published into the local manifest doubles no segment, and every part not committed locally belongs to a segment that is still local. |
| `RunArchive.KeepUpload` | internal/controller/run_archive.go:567-612 | Copying a segment overwrites no object that a local manifest refers to. |
| `RunArchive.NothingLostOrDoubled` | internal/controller/run_archive.go:450-708 | After every step, crash and retry, each sealed segment is still local or is named by the durable local manifest with a durable object of the same digest; no manifest lists a segment twice. |
| `ArchiveProgress.PassDecides` | internal/controller/run_archive.go:450-708 | A pass in which no access fails archives every segment and removes every local copy exactly when the store still holds the segments that it alone has published; otherwise it stops with all local segments and both manifests as they were, and so will the next. |
| `Adjacency.BuildAdjacency` | internal/controller/analysis_graph.go:42-59 | Refuses exactly the invalid edge lists; otherwise every vertex lists exactly its neighbours, each once, for repeated and reversed edges too. |
| `GraphPaths.LabelsAreDistances` | internal/controller/analysis_graph.go:96-117 | Labels that are locally consistent along every edge are exactly the shortest distances, and absent exactly for unreachable vertices. |
| `GraphPaths.CountByParents` | internal/controller/analysis_graph.go:112-115 | The number of shortest paths through a vertex is the sum of those numbers over the last steps. |
| `GraphSearch.Search` | internal/controller/analysis_graph.go:96-117 | The search yields the distances, the number of shortest paths to every vertex, all shortest-path parents, and the reachable vertices in order of distance. |
| `Dependency.CountByChildren` | internal/controller/analysis_graph.go:133-137 | Paths through a vertex continue through its children, each in the proportion of the path counts. |
| `Dependency.BrandesRecursion` | internal/controller/analysis_graph.go:133-141 | The dependency of a source on a vertex, a sum over all targets, is the weighted sum over the children that the reverse pass accumulates. |
| `Betweenness.HandOn` | internal/controller/analysis_graph.go:133-137 | One step of the reverse pass: the vertex has gathered its whole dependency, and its parents get exactly their portions. |
| `Betweenness.AddSource` | internal/controller/analysis_graph.go:92-142 | One source adds to every vertex exactly the sum of its shares of shortest paths from that source. |
| `Betweenness.AllBetweenness` | internal/controller/analysis_graph.go:89-154 | The result is the betweenness of every vertex by its definition over all ordered pairs, normalised. |
| `CentralityBounds.NormalisedRange` | internal/controller/analysis_graph.go:150-154 | Normalised betweenness is between 0 and 1, and 1 for a vertex that every shortest path between two others passes. |
| `CentralityBounds.StarCentre` | internal/controller/analysis_graph.go:150-154 | The centre of a star has betweenness 1. |
| `Adjacency.EdgeListBetweenness` | internal/controller/analysis_graph.go:42-154 | From edge list to betweenness, end to end. |
| `MessagePaths.Resolver.Resolve` | internal/controller/analysis_research.go:413-448 | Resolving one receiver terminates on any parent map, cycles included, and leaves everything resolved as the chains of parents say. |
| `MessagePaths.Resolver.ResolveAll` | internal/controller/analysis_research.go:449-452 | After resolving in any order, the hop is the length of the chain to the publisher or absent if it never arrives; the source is eager iff all links of an arriving chain are, lazy iff some link of an arriving chain is. |
| `MessagePaths.ResolvedOnce` | internal/controller/analysis_research.go:413-452 | The outcome does not depend on the order of visits. |
| `Buckets.BucketContains` | internal/controller/analysis.go:321-327 | The bucket contains the time, also before the epoch where division rounds towards zero. |
| `Buckets.BucketNests` | internal/controller/analysis.go:207-213 | Buckets of twice the width are unions of buckets. |
| `StreamingBins.Widen` | internal/controller/analysis.go:207-224 | Merging bins gives the direct grouping at twice the width. |
| `StreamingBins.BinEvents` | internal/controller/analysis.go:179-224 | After any sequence of events there is a bin for exactly the occupied buckets, and each of its eight fields is the number of events of that kind in that bucket, at the final width, with at most 360 bins; the width is the narrowest power of two for which that is so, and the widening stops. |
| `StreamingBins.TallyNumbers` | internal/controller/analysis.go:179-206 | Each field of a tally is the number of positions at which an event of that kind falls into the bucket, counted without the code that counts. |
| `Bandwidth.CheckSample` | internal/controller/bandwidth.go:30-48 | Accepts exactly the samples whose protocols are distinct, non-negative and together within the whole, without an overflowing sum. |
| `Bandwidth.Difference` | internal/controller/bandwidth.go:72-94 | Succeeds iff no protocol counts backwards or disappears, and then gives exactly what each one added. |
| `Bandwidth.Accumulator.Observe` | internal/controller/bandwidth.go:53-104 | A sample is accepted iff it is valid, extends its session and fits the totals; totals are the sums of the latest accepted counters on every channel, an interval is the difference to the sample before in time and on every channel, and the intervals of every session lie end to end from zero. |
| `Bandwidth.Summarize` | internal/controller/bandwidth.go:140-167 | Per-protocol totals over all sessions are exact and cannot overflow at any addition. |
| `BandwidthTimeline.Widen` | internal/controller/bandwidth.go:216-238 | Every bin of twice the width holds, on every channel, what its two halves held; so merging conserves every channel and the covered time. |
| `BandwidthTimeline.SpreadInterval` | internal/controller/bandwidth.go:239-264 | Every bin gains, on every channel, exactly the fraction of the interval that overlaps it, and so all bins together exactly what it carries. |
| `BandwidthTimeline.Timeline.Add` | internal/controller/bandwidth.go:195-265 | After any additions every bin holds, on every channel, the sum over all intervals of the fractions that overlap it; there are at most 360 bins, and the width is five seconds doubled only while half of it spans too many. |
| `BandwidthTimeline.WidenedPlaced` | internal/controller/bandwidth.go:216-238 | Widening keeps that every bin holds exactly what overlaps it. |
| `BandwidthTimeline.Ingest` | internal/controller/bandwidth.go:53-265 | For every sequence of reports the accumulator holds, for each session, the latest report that counts by the stated condition, and counts every report as accepted, stale or rejected; the timeline is made of exactly one interval for each report that counts and adds to its session, with what it adds, and holds their sum on every channel. |
| `ScoreTimeline.GapsBetween` | internal/controller/analysis_score_timeline.go:76-81 | Two measurements have equal gap counts iff no gap lies between them. |
| `ScoreTimeline.ScoreSeries.Thin` | internal/controller/analysis_score_timeline.go:109-120 | In place, exactly every other point remains and the stride doubles. |
| `ScoreTimeline.ScoreSeries.Observe` | internal/controller/analysis_score_timeline.go:76-106 | Retained point k is measurement k times the stride, below the sample limit, with the stride doubled only when the sample was full, and the first and last measurement of every component are kept. |
| `ScoreTimeline.ScoreSeries.Result` | internal/controller/analysis_score_timeline.go:122-161 | Fewer points than the limit, all genuine, none twice, the sample and the ends of every component among them; for advancing times in order, broken exactly where the measurements had a gap; otherwise by time, and by measurement where times are equal, with every point broken off. |

## Left out

- Legacy `.json` telemetry arrays, the spool's format marker and the run ID kept with each record.
- JSON: a line counts as a valid event when it is an object literal without a raw newline; encoders are given by their bytes.
- Backlog limits, telemetry decoders and the in-memory queue used when there is no spool.
- A random part of a segment name that is already in use: `Spool.TelemetrySpool.Append` requires a fresh one.
- Spool.TelemetrySpool.RemoveSegment: it is not shown that a segment whose deletion failed is retried before the next restart when a second deletion fails as well.
- A journal whose deletion was not synced does not come back in the model; in the program it would be an orphan under a name that is never used again.
- After a failed `SpoolRestart.ReleaseIdle` the Agent's memory may name an active segment whose file is gone, as in the program; the operations on such a memory are not modelled, only the directory and a restart.
- Agent capacity, network preparation and host status checks on admission; they appear as one choice.
- Store paging by size: a page of retired records may end after any record.
- A Controller that forgets its inventory without a registration: coverage is about completed registrations.
- HostReboot.AtMostOneHelperPerBoot: says nothing about rejections of requests whose boot or Agent identity does not match, which are answered without being stored.
- Limits on queued reboot operations and the shutdown of the Controller.
- The Controller's reboot fences per host and the proofs that release them; signatures and the helper's commands.
- BatchAdmission.BatchStore.Admit: the reservation's own removal of directories after a failure is covered by the rollback that follows it; scheduling and in-memory run state are not modelled.
- The guards of retries, continuations and appends that only refuse more: analyses in progress, the list of expected runs, differing scenario files, and data already collected.
- BatchAttempts.NeverFallsBack: an admission whose commit was renamed but not synced has reported an error and counts as committed or as abandoned, whichever the next crash leaves; readers who saw it committed before such a crash are not modelled.
- The record of deleted attempts kept for statistics, and batch analysis over members.
- Progress reports, queueing and source verification of analysis jobs; archive layout reading, recovery of a lost store, metadata files and the second log of a run.
- Adjacency.BuildAdjacency: the lists are not sorted; the results hold for every order of neighbours.
- Closeness, diameter, clustering, PageRank, eigenvector centrality, assortativity and modularity.
- BandwidthTimeline.Ingest: real numbers instead of floating point, and times without the limits of the clock type.
- Current bandwidth rates and their freshness.
- ScoreTimeline.ScoreSeries.Observe: one observer group; finding the group and validating its statistics come before it.
- Timeouts and fairness: progress is shown for undisturbed schedules, not for every fair one.
