# Verification of the parallel range downloader

A Dafny model of the engine that downloads one file over several connections,
with proofs about every run of it. `dafny verify dfyconfig.toml` checks it all.

What is modelled:

- **Range scheduler** (`scheduler_model`, `scheduler_laws`, `scheduler_exact`,
  `scheduler`, `chunk_sums`): half-open byte ranges that are pre-split, granted, stolen,
  claimed, demoted, completed and snapshotted. `SchedulerModel` gives each
  critical section as a relation between scheduler values, `SchedulerLaws` what
  each keeps, and `Scheduling` the scheduler itself: a class over chunk objects
  whose methods change the fields in place and are proved against those
  relations.
- **A run** (`engine`, `engine_laws`, `guarantees`, `reporter`, `steal_bound`,
  `transfers`, `errors`, `eager_start`, `drain`, `completions`, `empty_chunk`,
  `lost_chunk`, `worker_loop`, `retry`): the scheduler, the staging file and a
  program counter per worker. Every critical section, every WriteAt and every
  counter update is a step of its own, and so is each look a worker takes at its
  context; a sequence of steps is one interleaving of workers, demotions,
  retirements and the run's cancellation. The theorems are about all of them.
- **The sidecar** (`sidecar`, `snapshots`, `multipart`, `resume`, `resume_accepts`): when one is
  accepted, what it asks for, and what is on disk after any chain of runs and
  process crashes.
- **The concurrency governor** (`ramp`, `ramp_laws`, `ramp_rules`, `ramp_state`, `governor`): admission in
  doubling batches, the verdicts, the reaction to 429s, and the composition with
  the scheduler when its decisions are delivered late and out of order.
- **Node placement and culling** (`placement`, `node_placement`, `cull`,
  `cull_history`, `rotation`, `handshake`): connection counts, sampling windows, strikes, and the
  handshake that moves workers off a culled address.
- **The destination lock** (`pathlock`): reference-counted entries and a token.

The server is honest: a 206 whose Content-Range says it starts at s carries the
source's bytes from s on, as many of them as it likes to send (sections 14.2,
14.4 and 15.3.7 of RFC 9110), and two representations of one source and size
have equal bytes when the validator that If-Range would compare agrees (section
13.1.5). `Resume.Honest` is that second assumption. A minimum part size of at
least one and 1 <= MinParts <= Parts are what the options' validation
guarantees (download.go:167-188).

Five results say when something holds that does not hold always:

- A run whose workers have all left, without an error and without being stopped,
  has no work remaining if and only if no worker with an error in hand was
  retired between the two looks run() takes at its context, context.Cause
  (worker.go:173) and ctx.Err (worker.go:196). Such an error is taken for the noise
  of a cancellation, and the worker's drained chunk stays active: the download
  fails with "workers exited with work remaining" instead of the worker's own
  error (`Guarantees.FinishedRunIsComplete`). `LostChunk.WorkRemainsHappens` is a
  run in which that happens, whatever the error was.
- A snapshot passes the sidecar's structural scan if and only if no active chunk
  was shrunk to length zero when it was taken (`Snapshots.SnapshotLoads`);
  `EmptyChunk.EmptyActiveHappens` is a run that makes one.
- Re-resolving a host keeps the connection counts if and only if no worker sits
  on an address that the new answer adds to the pool
  (`NodePlacements.NodePlacement.InstallOrderLocked`). While dial winners come
  from the pool no worker ever does.
- A worker sends a request over a transport that was hit in an earlier attempt if
  and only if, since it made that transport, it began to read the election body
  with the flag of a hit up, which is a hit that landed after the attempt's own
  look at the flag (`Rotation.CulledRequestsExactly`);
  `Rotation.StaleRequestHappens` is a run in which it does.
- A cull happens if and only if another address is live, eligible and without a
  strike (`NodePlacements.NodePlacement.CullLocked`).

The documentation comment on judgeLocked (cull.go:224-226) speaks of consecutive
slow windows; the code leaves the record of the best address of a window as it
is (cull.go:201-203). `CullHistory.CondemnedExactly` says what holds: a window in
which the address was the fastest does not break the row.

## Model

| member | source | states |
|---|---|---|
| Guarantees.FinishedRunIsComplete | download.go:1769-1793 | In every run from a valid start in which all workers have left without an error or a cancellation, nothing is pending and whatever remains is claimed in full; "workers exited with work remaining" is reported if and only if a worker's error was swallowed; if nothing remains the staged file equals the source byte for byte |
| Guarantees.LostAreSwallowed | worker.go:172-199 | The chunks lost up to a state are exactly those of workers found unretired at run()'s first look and retired at its second |
| LostChunk.WorkRemainsHappens | worker.go:172-199 | With either kind of error, a run in which a demotion lands between the two looks and that ends with work remaining |
| Guarantees.WritesAreInPlace | worker.go:430-492 | Under every interleaving the body position is the claim cursor while reading, and what is handed to WriteAt is the source's bytes of the claimed offset |
| Guarantees.NoWorkStrands | worker.go:160-202 | While the run is healthy, pending work has a live non-retiring worker that will call next again, and every undrained active chunk is held by a live non-retiring worker |
| Guarantees.RetiredWorkerNeverLeavesAGap | worker.go:172-195 | A worker found retired at the first look passes the net's check unless its error is permanent; the branch called structurally unreachable is unreachable |
| Guarantees.NettedIsCompleted | worker.go:186-191 | Such a worker completes its chunk before anything else, and the chunk never comes back |
| Errors.ErrorsSurface | worker.go:172-203 | Once all have left, every error of a worker has stopped the run, unless its chunk is still active because it was swallowed, or it was not permanent and the retirement net took it |
| EngineLaws.RetirementNetHolds | worker.go:180-191 | For such a worker the chunk is drained and its written count equals the bytes claimed |
| Guarantees.ClaimsPartition | sched_property_test.go:13-14 | At every moment of every run a byte has been claimed or is unclaimed, never both, and lies in at most one chunk |
| Guarantees.NoByteClaimedTwice | scheduler.go:241-249 | A byte taken by one read is in no later read's write, by whatever worker |
| EngineLaws.ReadClaims | worker.go:470-492 | What a read newly claims was unclaimed, and nobody had claimed any of the bytes it will write |
| Transfers.RequestsExactly | worker.go:302-341 | In any run an attempt asks for exactly the chunk's unclaimed bytes, or takes the election body at byte zero; a drained chunk is finished |
| Transfers.ElectionIsTakenOnce | worker.go:311-318 | In no run is the election response taken twice |
| Transfers.ResponsesAreChecked | worker.go:437-455 | A 206 leads to a body if and only if it starts at the claim cursor, ends within the request and is of the known or an unknown size; the body is read no further than it and the chunk go; else the error is permanent |
| Transfers.ReadsExactly | worker.go:470-492 | In any run bytes that arrive are claimed from the cursor as far as there is room, exactly those are written, and the worker stops if and only if the chunk is drained |
| Guarantees.FlowsWithinLimit | scheduler.go:117-129 | In every state with a limit, at most that many live workers are non-retiring, at most that many chunks are undrained while the run is healthy, and none of those workers is refused |
| Guarantees.LimitOnlyFalls | scheduler.go:193-196 | After a demotion to keep the limit stays between 1 and max(keep, 1) for the rest of the run |
| EngineLaws.StepKeeps | worker.go:160-492 | Every step of every worker, each of the two looks at its context among them, and every demotion, retirement and cancellation keeps the whole invariant of the run |
| EngineLaws.RunKeeps | worker.go:160-492 | Every run keeps the whole invariant from its start on |
| Draining.EveryRunDrains | sched_property_test.go:21 | Any run has at most 6 steps a byte and 8 a chunk that can ever be handed out, plus what is allowed to each spawn, demotion, wake-up, cancellation and repeated request; an error-free run finishes within that bound, however short the server cuts its ranges |
| Draining.StepSpends | sched_property_test.go:21 | Every single step lowers the measure behind that bound, up to its allowance |
| Draining.NobodyIsStuck | worker.go:160-299 | In every reachable state whoever has not left can take a step in which nothing goes wrong |
| Draining.QuietRunIsComplete | download.go:1769-1793 | A run in which no such step is left, and which was not stopped, has all workers gone and nothing pending; it is idle if and only if no error was swallowed, and the file then equals the source |
| Draining.EverySteadyRunCanComplete | sched_property_test.go:17-18 | From any state in which nobody has an error in hand, a run can go on with nothing going wrong until all have left; only the chunks lost before remain, and with none the file is complete |
| StealBound.SplitsAreBounded | scheduler.go:87-112 | All splits of one run, those of prepare before it included, are at most total / minSize, however long it lasts and however its workers come and go |
| StealBound.StealsAreBounded | scheduler.go:138-155 | Its steals alone are at most that |
| StealBound.StepBudget | scheduler.go:144-153 | No step raises the sum over chunks of max(0, remaining/minSize - 1), and a steal lowers it |
| ChunkSums.HalvesAreWorthwhile | scheduler.go:102-112 | Both halves of a split have at least minSize bytes and together what was there |
| ChunkSums.SplitPendingSpends | scheduler.go:87-98 | Pre-splitting draws on the same budget as stealing |
| EagerStart.PrepareIsEnough | scheduler.go:78-100 | prepare keeps the remaining bytes and returns n, or else the number of pending ranges (at least 1), and less than n only if no pending range can be halved |
| EagerStart.EagerWorkersAreServed | scheduler.go:130-137 | While nobody is demoted, the k-th call to next gets the k-th pending chunk, whatever was claimed or completed in between |
| ReporterTrace.ReporterSeesNoOverlap | sched_property_test.go:19-20 | At every prefix of the trace of every run announced extents are disjoint, ids start once, resizes never grow, and each active chunk is known at its true length |
| ReporterTrace.ResizeCoversClaims | scheduler.go:218-233 | No announced length falls below what the owner has claimed; the trace only grows |
| ReporterTrace.StartedOnce | scheduler.go:318-322 | A good trace starts no id twice |
| Completions.DoneOnce | worker.go:188-189 | At every moment of every run no chunk was called done twice, and only chunks that were started and have left the scheduler for good |
| Completions.EachStartedIsDone | sched_property_test.go:19-20 | In a finished run each started id is called done exactly once, the lost ones never; so all are if and only if no error was swallowed |
| SchedulerLaws.NextKeeps | scheduler.go:117-158 | next keeps the invariant, the unclaimed, owed and covered bytes, and every other active chunk |
| SchedulerLaws.NextServes | scheduler.go:113-158 | next never leaves pending work or an undrained chunk without a worker that stays |
| SchedulerLaws.RefusedByLimit | scheduler.go:125-129 | A worker turned away while work is pending leaves somebody live who stays |
| SchedulerLaws.StayingWorkerNotRefused | scheduler.go:120-129 | A live worker that is not retiring is never refused |
| SchedulerExact.NextGrantsExactly | scheduler.go:117-158 | next grants a chunk if and only if the worker is neither retiring nor above the limit and something is pending or an active chunk has at least 2 * minSize bytes unclaimed; else it deregisters the worker and changes nothing |
| SchedulerExact.PendingIsGranted | scheduler.go:130-137 | The head of pending goes out as it is, and is announced with its extent and what is written of it |
| SchedulerExact.UpperHalfIsStolen | scheduler.go:138-156 | A stolen chunk is the upper half, or the byte more, of a remainder that none exceeds; nothing else changes |
| SchedulerExact.LeavesOnlyWithoutWork | worker.go:166-170 | In any run a worker leaves through next if and only if it is turned away or nothing is pending and no remainder is worth halving |
| SchedulerLaws.DemoteKeeps | scheduler.go:183-235 | demote conserves every byte, marks exactly the excess, and leaves min(non-retiring, max(keep, 1)) workers |
| SchedulerLaws.DemoteServes | scheduler.go:186-189 | After demote the moved remainders and all undrained chunks still have a worker that stays |
| SchedulerLaws.DemoteDrains | scheduler.go:218-229 | After demote every retiring worker's chunk is drained |
| SchedulerExact.DemoteExactly | scheduler.go:218-233 | Exactly the chunks of retiring workers lose their unclaimed bytes, every other chunk stays as it is, and what was taken is appended to pending |
| SchedulerLaws.VictimsAreHighest | scheduler.go:201-217 | Every worker selected has a higher id than every worker kept |
| SchedulerLaws.HalvingsKeep | scheduler.go:84-100 | Any number of pre-splits keeps the invariant and the bytes |
| SchedulerLaws.ClaimTakes | scheduler.go:237-249 | A claim removes exactly [cursor, cursor + write) from the unclaimed bytes |
| SchedulerLaws.CreditPays | worker.go:481 | Crediting takes from the owed bytes only the ones credited |
| SchedulerLaws.CompleteKeeps | scheduler.go:276-280 | Completing a drained, fully written chunk changes neither owed nor unclaimed bytes |
| ChunkSums.RemainingIsCount | scheduler.go:283-294 | remainingBytes is the number of unclaimed bytes |
| ChunkSums.DemoteConserves | scheduler.go:188-189 | demote conserves remainingBytes exactly |
| ChunkSums.NextConserves | scheduler.go:117-158 | next conserves remainingBytes |
| Scheduling.Scheduler.constructor | scheduler.go:58-65 | An empty scheduler |
| Scheduling.Scheduler.AddPending | scheduler.go:69-76 | Appends a pending chunk whose first done bytes count as claimed and written |
| Scheduling.Scheduler.LargestPendingChunk | scheduler.go:88-93 | The scan finds a largest pending remainder, or there is none pending |
| Scheduling.Scheduler.Prepare | scheduler.go:84-100 | The loop is a sequence of halvings of the largest pending chunk that ends when n are pending or none can be halved |
| Scheduling.Scheduler.SplitLocked | scheduler.go:104-111 | The chunk keeps the lower half of its unclaimed remainder, the new one has the rest |
| Scheduling.Scheduler.NonRetiringLive | scheduler.go:173-181 | The loop counts the live workers that are not retiring |
| Scheduling.Scheduler.Next | scheduler.go:117-158 | The whole section is the relation Next: register, refuse, grant, steal from a largest remainder, or drain |
| Scheduling.Scheduler.Exit | scheduler.go:162-171 | Removes the worker from live and retiring |
| Scheduling.Scheduler.MarkVictims | scheduler.go:201-217 | The selection loop picks exactly the excess, highest first |
| Scheduling.Scheduler.ShrinkRetired | scheduler.go:218-233 | The loop moves every undrained remainder of a retiring owner, once, in whatever order the map yields |
| Scheduling.Scheduler.Demote | scheduler.go:190-235 | The whole section is the relation Demote, and the victims are its result |
| Scheduling.Scheduler.Claim | scheduler.go:241-249 | Offset, size and stop flag, and the chunk's new cursor |
| Scheduling.Scheduler.CreditWritten | worker.go:481 | Adds to written and nothing else |
| Scheduling.Scheduler.Cursor | scheduler.go:254-259 | The claim cursor, the present end, and whether anything is left |
| Scheduling.Scheduler.Complete | scheduler.go:276-280 | Drops the chunk from the active ones; harmless otherwise |
| Scheduling.Scheduler.RemainingBytes | scheduler.go:283-294 | The two loops compute the sum over all chunks |
| Scheduling.Scheduler.Idle | scheduler.go:297-301 | True exactly when no chunk exists |
| Scheduling.Scheduler.Snapshot | scheduler.go:305-316 | The two loops list every chunk once |
| WorkerLoop.Sink | worker.go:470-492 | Claims, writes at the claimed offset and credits; what the chunk has no room for is dropped |
| WorkerLoop.Pump | worker.go:551-574 | Over a whole body: the chunk's share of it stands in the file from the old cursor on, all of it claimed and credited, nothing else changed; the result says whether the chunk was drained |
| Sidecar.ScanStates | state.go:106-120 | The sort-and-scan accepts exactly the lists of non-empty ranges inside the file no two of which overlap, in whatever order they are listed |
| Sidecar.LoadState | state.go:91-121 | Returns the parsed sidecar exactly when it is structurally valid |
| Sidecar.Remaining | state.go:151-158 | The loop's result, for an accepted sidecar, is the number of missing bytes, between nothing and everything |
| Sidecar.RemainingCounts | state.go:151-158 | The sum over disjoint ranges counts their bytes |
| Snapshots.SnapshotNeedsWhatIsOwed | scheduler.go:303-316 | A snapshot asks for exactly the bytes not known to be on disk |
| Snapshots.SnapshotLoads | state.go:106-120 | A snapshot passes the scan if and only if no active chunk was shrunk to length zero |
| EmptyChunk.EmptyActiveHappens | scheduler.go:222-228 | A run that makes such a chunk: two grants, then a demotion of a worker that has claimed nothing |
| Snapshots.SnapshotRoundTrip | download.go:1337-1344 | Snapshot, reload and rebuild: the new scheduler offers exactly the bytes that were owed, remaining() is their number and the new remainingBytes |
| Snapshots.SeededOffers | download.go:1337-1342 | The rebuilt scheduler offers a byte exactly if the sidecar asks for it |
| Snapshots.SeededValid | download.go:1337-1342 | It is a valid start of a run |
| Multipart.Resume | download.go:1337-1344 | The seeding loop builds that scheduler; the resumed-byte figure lies between 0 and the total |
| Multipart.Afresh | download.go:1346-1352 | Without a usable sidecar one pending chunk covers the file |
| Resume.ResumeIsSafe | download.go:1327-1383 | After any chain of runs, failures and crashes, whenever a run accepts the sidecar it finds, every byte the sidecar does not ask for is already right in the part file |
| Resume.InstalledFileIsComplete | download.go:1769-1793 | A file that reaches installation is the representation the run downloaded |
| Resume.HistoryOk | worker.go:912-919 | Every step of every chain, single-stream ones included, keeps the sidecar truthful |
| Resume.UsableMeansSame | state.go:125-145 | An accepted sidecar was written for the same bytes the server serves now |
| ResumeAccepts.AcceptedExactly | state.go:91-145 | After any history a sidecar is resumed from if and only if source, size and validator (a strong ETag, else Last-Modified) agree with the run that wrote it, the part file has its size, and no active chunk was empty in the snapshot |
| ResumeAccepts.AcceptedMeansSameBytes | state.go:91-145 | For an honest server and an equal source and validator: if and only if the bytes are the same, the part file is whole and no empty chunk was recorded |
| Retrying.DownloadChunk | worker.go:216-299 | The retry loop ends within (bytes + culls that hit the worker + progress + addresses + 1 + MaxRetries) attempts; it gives up if and only if MaxRetries of them were charged: transient failures, throttles without progress since the last charge, and address failures with no address, refresh or certificate failure left; it fails for good if and only if the last failure was permanent or a certificate failure surfaced; it never goes on past success, a permanent failure or its context's end |
| Retrying.CappedAndSlowAreFree | worker.go:240-251 | A chunk whose attempts only end in capped ranges and slow nodes is never charged, so it never gives up |
| Retrying.Settle | worker.go:240-297 | Charges exactly those failures, and remembers the progress at the last charge or throttle; a retry that is not charged uses up a byte, a cull, an address, the refresh or new run progress |
| Retrying.RotationBudget.Admit | worker.go:70-94 | Free exactly for an address never tried or the one refresh; a retained certificate failure surfaces exactly when neither is left |
| Retrying.CappedAdvances | worker.go:451-464 | The check that calls a range capped implies that the cursor moved past all of it, and that it ended short of the chunk |
| Retrying.SlowWithinCulls | worker.go:247-251 | A chunk has no more slow-node failures than culls that hit its worker |
| Rotation.SlowFailuresNeedCulls | worker.go:247-251 | A worker has no more slow-node failures than culls that hit it |
| Rotation.RunningAttemptIsCancelled | cull.go:267-278 | A cull that hits a worker in mid-attempt, over its own transport or reading the election body, collects that attempt's cancel |
| Rotation.ElectionReaderIsCancelled | worker.go:395-405 | A worker reading the election body from a culled address is cancelled or its cancellation is on the way |
| Rotation.ElectionReaderLetsGo | worker.go:392-395 | ... and has given that address back before its next request |
| Rotation.NextRequestIsElsewhere | worker.go:307-318 | After each cull a worker it hit sends no request in a later attempt before dropping its transport, unless after that very cull it began to read the election body with the flag still up |
| Rotation.CulledRequestsExactly | worker.go:307-318 | A request goes over a transport hit in an earlier attempt if and only if that happened since the transport was made |
| Rotation.StaleIsMissed | worker.go:307-318 | Seen from the worker: its request was prepared over a transport that had been hit if and only if it missed a hit |
| Rotation.StaleRequestHappens | worker.go:311-318 | That exception is real: a run in which the flag is spent on an election body that is read to its end all the same, and the next request goes over the culled transport |
| Rotation.StepKeeps | worker.go:302-428 | Every step of the handshake keeps: a worker that was hit is flagged, dropping, in a cancelled attempt, or missed the hit |
| Handshake.CullAgrees | cull.go:267-278 | cullLocked on an address raises the flags and collects the cancels of exactly the workers that the handshake's cull hits |
| Handshake.CullReachesAll | cull.go:267-278 | In every reachable state a cull collects the cancel of each attempt under way on the address, and of nobody else there |
| Handshake.BeginAgrees | nodes.go:457-473 | beginAttempt is the handshake's Begin: the flag it consumes decides whether the attempt is cancelled |
| Handshake.LookAgrees | worker.go:307-310 | The flag swap at the start of an attempt is the handshake's look |
| Handshake.EndAgrees | nodes.go:474-478 | The end of an attempt unregisters its cancel |
| Handshake.ElectionAgrees | worker.go:392-395 | Attaching the election's address and giving it back are the handshake's steps |
| Ramping.SettleFloorFor | download.go:1416-1422 | Twice the election round-trip, or the floor or the cap when that lies outside |
| Ramping.EligibleIs | download.go:1407-1414 | Probing is worth it if and only if there are several connections and minPartSize bytes for each |
| RampStates.RampState.constructor | download.go:1709-1731 | The start of a run's governor: the exact window and settling floor, and done already if and only if Parts are filled or the work cannot feed them |
| RampStates.RampState.NoteLocked | download.go:1552-1594 | One window, exactly by the rules below over the whole history; in particular no effect once done, a batch takes the next unused ids, and a demotion ends probing at or above the floor |
| RampStates.RampState.MeasureLocked | download.go:1599-1611 | Two windows are summed before a verdict |
| RampStates.RampState.DecideLocked | download.go:1613-1628 | Demote, freeze, admit or stop, by the two ratios |
| RampStates.RampState.AdmitLocked | download.go:1630-1641 | A batch as large as the present count, clamped to Parts, and a new settling period |
| RampStates.RampState.NoteWorkerReady | download.go:1505-1516 | Makes the batch ready if and only if the worker is of the admitted batch under judgment |
| RampStates.RampState.RejectThrottled | download.go:1523-1550 | A 429 ends probing; from a worker that is to stay it takes the next step of the walk to the count before the last batch, the floor, one flow; from any other, or at the end of the walk, it sheds nobody |
| RampLaws.AdmittedDoubles | download.go:1424-1436 | After k admissions min(parts, floor * 2^k) workers were spawned, and that is the flow count while probing |
| RampLaws.SpawnsAreContiguous | download.go:1630-1641 | A batch takes the next ids after all earlier ones, none twice, and comes with no demotion |
| RampLaws.AdmissionIsEarned | download.go:1567-1594 | A further batch needs a first byte from the last one, settleMin since its admission, and a rate of at least 1.15 times the baseline over exactly the two windows since settling ended |
| RampLaws.VerdictKeepsFloor | download.go:1613-1621 | A throughput verdict ends probing, asks for at least the floor and less than now, and leaves the admitted count |
| RampLaws.DemotionsKeepFloor | download.go:1518-1521 | In any run there is at most one, and it is never below the floor |
| RampLaws.KeepsFall | download.go:1523-1550 | The flow counts that 429s ask for fall strictly, stay at least 1, and are at most three, however many 429s arrive |
| RampLaws.ProbingEnds | download.go:1555-1594 | After 6 * (parts - floor) + 8 full windows past their settling time the governor is done |
| RampRules.WindowsFollowRules | download.go:1552-1641 | After any history a full window leads to exactly one of: wait, admit the doubled batch, freeze, or demote to the count before the last batch; burn-in, the first baseline, silence past the settling time, and a rate over the two judged windows below 1.02, below 1.15 or at least 1.15 times the baseline decide which |
| RampRules.DemotedExactly | download.go:1518-1521 | A throughput demotion is asked for if and only if the batch stayed silent for more than two windows past its settling time or the judged rate is below 1.02 times the baseline |
| RampRules.ThrottlesWalk | download.go:1523-1550 | Over any history the 429s ask for a beginning of that walk, and each of a worker that is to stay takes one step |
| Governor.LimitIsLeastKeep | download.go:1698-1708 | However late and in whatever order decisions are delivered, the limit is the least delivered; once all are, the least ever issued |
| Governor.FlowsNeverExceedKeep | download.go:1490-1503 | From the delivery of a demotion on, no more workers than it allows stay or hold unclaimed bytes |
| Governor.LateSpawnIsHarmless | download.go:1680-1697 | A spawn delivered late brings a worker nobody had; while as many stay as the limit allows, next turns it away and leaves the scheduler as it was |
| Governor.GovernedReached | download.go:1715-1737 | Governor and run together keep the run's invariant, fresh worker ids, and every issued keep either delivered or waiting |
| Placement.OrderNodeAddresses | nodes.go:215-245 | No duplicates, exactly the valid addresses of the answer and the election, election first, its family before the other, and within a family the order of the answer |
| Placement.BestIs | nodes.go:286-307 | The best address is the first of those with fewest connections among the ones that are not excluded, not parked, and never struck or struck once and without a connection |
| Placement.InstallAccounts | nodes.go:255-267 | Counts survive a re-resolution if and only if no worker sits on an added address |
| Placement.InstalledIs | nodes.go:255-267 | Known addresses keep their record, new ones start clean, all get their place |
| Placement.MoveAccounted | nodes.go:309-331 | Moving a worker from one address to another moves one count |
| NodePlacements.NodePlacement.constructor | nodes.go:165-180 | The election connection is counted once, while nobody has taken it over |
| NodePlacements.NodePlacement.WorkerLocked | nodes.go:269-278 | Registers a worker once, and records the membership change |
| NodePlacements.NodePlacement.AssignLocked | nodes.go:309-331 | Keeps each member's count equal to its workers (and the pending election); every change gets a new membership generation |
| NodePlacements.ReassignedIs | nodes.go:309-331 | Only that worker moves; a new connection has a new generation, no bytes yet, and is counted if and only if it is on an address |
| NodePlacements.NodePlacement.BestLocked | nodes.go:290-307 | The least loaded eligible address that is not on probe, the earliest among equals; none only if there is none |
| NodePlacements.NodePlacement.Reserve | nodes.go:333-355 | Keeps an address already held, else takes the best one, the avoided one only when nothing else is left |
| NodePlacements.ReservedIs | nodes.go:333-355 | Nothing is answered if and only if no address is free; the avoided one only if no other is; else one with fewest connections |
| NodePlacements.NodePlacement.MarkAvailabilityFailure | nodes.go:378-389 | Parks the address, no strike |
| NodePlacements.NodePlacement.MarkDialWinner | nodes.go:391-400 | A dial is a new generation even on the same address; counts stay right |
| NodePlacements.NodePlacement.GotConn | nodes.go:402-427 | A remote outside the pool makes the worker give its address back |
| NodePlacements.NodePlacement.AttachInitial | nodes.go:429-446 | The election's count passes to its worker with no moment in between |
| NodePlacements.NodePlacement.ReleaseAddress | nodes.go:480-489 | The worker holds no address and is counted nowhere |
| NodePlacements.NodePlacement.RemoveWorker | nodes.go:491-506 | The worker and its count go together |
| NodePlacements.NodePlacement.InstallOrderLocked | nodes.go:255-267 | Installs the order; counts stay right if and only if nobody sits on an added address, which holds while everybody is on the pool |
| NodePlacements.NodePlacement.TakeSnapshot | cull.go:36-58 | Samples exactly the workers whose bytes are counted, with the membership of that generation |
| NodePlacements.SameGenerationSameConnections | cull.go:114-117 | Two snapshots with one membership generation show every worker on the same connection |
| Culling.NodeRates | cull.go:114-139 | Accepts a window exactly when nobody joined, left or changed connection, time passed and no counter fell; then every sampled worker's bytes are in its address's sum, once |
| Culling.BestWindowRate | cull.go:160-173 | The fastest address with warm-up bytes, or none that moves |
| NodePlacements.NodePlacement.ResetCullEvidence | cull.go:105-112 | Clears both counters of every listed address |
| NodePlacements.NodePlacement.JudgeWindow | cull.go:196-209 | Every other address that was sampled is judged once, by the numbers of Culling.JudgeFollows, and the slowest of those to be culled is found |
| NodePlacements.NodePlacement.CullLocked | cull.go:250-280 | Strikes an address if and only if another one is live, eligible and unstruck; one strike more, no evidence, parked or banned; flags exactly its workers and collects exactly their registered cancels |
| NodePlacements.NodePlacement.EvaluateWindow | cull.go:175-222 | A window that cannot be used clears the evidence and nothing else. In any other an address is culled if and only if it is the slowest of those below a quarter of the best rate, not on tails only and slow before, the cooldown has passed and the best address can take over; all other records follow the numbers |
| NodePlacements.JudgesWithinLimits | cull.go:196-213 | So a window adds at most one strike, to an address slow before, and leaves a live eligible one without any |
| NodePlacements.StruckIsAvoided | cull.go:257-263 | A culled address is eligible again from the cooldown on after its first strike, and never after its second |
| Culling.JudgeFollows | cull.go:227-248 | Below a quarter of the best rate and not on tails only is slow; slow windows add up until one is not; on probation healthy ones add up and the second restores the address |
| Culling.StableIs | cull.go:114-127 | A window is stable if and only if both samples show the same workers on the same connections, with no counter falling, at different times and one membership generation |
| Culling.PerConnIs | cull.go:142-145 | A rate is bytes over elapsed time and connections, counting at least one |
| CullHistory.CondemnedExactly | cull.go:224-248 | Over the whole life of a record: condemned if and only if the window is slow after another slow one, with only slow windows, or ones in which the address was the fastest, in between |
| CullHistory.RestoredExactly | cull.go:229-241 | The strikes go if and only if a healthy window on probation follows another, with no slow one on probation, unusable one or cull in between |
| CullHistory.WindowHappens | cull.go:196-222 | Every judged window is one such step of every record, and a cull one more |
| NodePlacements.NodePlacement.BeginAttempt | nodes.go:457-473 | Registers the cancel and consumes the flag in one section |
| NodePlacements.NodePlacement.CreditBytes | worker.go:502-512 | Bytes of a connection generation that is over are credited to nobody |
| PathLock.PathLockRegistry.RefDestination | pathlock.go:48-60 | The registered entry or a new one with its token, and one more reference |
| PathLock.PathLockRegistry.Receive | pathlock.go:80-88 | Takes the token |
| PathLock.PathLockRegistry.GiveUp | pathlock.go:81-83 | A caller that stops waiting keeps its reference until it releases it |
| PathLock.PathLockRegistry.Keep | pathlock.go:84-91 | A caller whose context is alive after the receive holds the path |
| PathLock.PathLockRegistry.Return | pathlock.go:63-71 | The channel always has room: returning the token never blocks |
| PathLock.PathLockRegistry.ReleaseDestinationRef | pathlock.go:120-127 | One reference less; the entry goes exactly with the last one |
| PathLock.PathLockRegistry.OneHolderPerKey | pathlock.go:11-17 | At most one caller possesses a path, across deletion and re-creation of its entry |
| PathLock.PathLockRegistry.ReferredIsRegistered | pathlock.go:124-126 | A referred entry is the registered one for its path, so the deletion's guard never fails |
| PathLock.PathLockRegistry.TokenIsAvailable | pathlock.go:92-118 | The token lies in the channel exactly when nobody possesses the path: a contended answer means a holder, and no cancellation loses the token |
| PathLock.PathLockRegistry.NothingAccumulates | pathlock.go:11-13 | With no caller left no entry is left |

## Left out

- HTTP, TLS, redirects, proxies, headers, DNS and the election itself: replaced by the honest server above and by address parameters.
- JSON, atomic rename, file locks and hashing: a sidecar save is one atomic replacement of a value; path canonicalisation is a parameter of the lock.
- Power loss: only process crashes, because nothing is synced before a sidecar save.
- The single-stream path, but for the order in which it removes the sidecar before truncating.
- Clocks and floats: times are integers, rates exact reals; rounding of float64 rates is not modelled.
- Waiting: sleeps, backoff and the stall-timeout ladder; which of the enabled steps happens, and when, is not modelled.
- The race of at most two dials: its winner is a parameter of MarkDialWinner.
- Transports, buffers, pools, logs, telemetry and the command line.
- The iteration order of Go maps: the relations and loops allow any order; ties between equally slow addresses are broken in any way.
- workerRemaining: whether a worker only drains a tail is a parameter of the sampling.
- Retrying.DownloadChunk: takes what attempts run into from a script; that the run's progress is bounded and addresses come from a finite set is assumed of it, and the script need only be as long as the proved bound.
- WorkerLoop.Pump: runs without other workers and without read errors; interference and failures are the subject of the step-by-step model in Engine.
- RampLaws.ProbingEnds: counts windows past their settling time; windows that fall into it are unbounded because time may stand still.
- NodePlacements.NodePlacement.EvaluateWindow: node records are values in a map, so two pointers to one record cannot be told apart from one.
- Draining.EveryRunDrains: bounds a run by its faults; that a server stops failing, or stops sending bodies that are cut short, is not claimed.
