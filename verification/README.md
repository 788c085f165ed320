# Beam transfer protocols, modelled and proved

This project models the protocols of the Beam network SDK (Go) and of its receipt services (TypeScript) that keep
state across failures, restarts and concurrent tasks, and proves what they promise. Hashing, signatures, NATS, HTTP and
the chain are parameters or an environment that may fail at any call, before or after its effect.

| part | modules |
|---|---|
| Relay pass: ledger, contract and listing cursors over any run of passes | `Receipts`, `Customers`, `RelayLedger`, `RelayRules`, `RelayPass` |
| Relay start cursor | `RelayStarts`, `StableSort` |
| Recovery leases, loops and hello monitors; transfer signers | `RecoveryLeases`, `RecoveryLoops`, `TransferSigners` |
| Multipart upload ownership: setup, resume, cleanup | `Uploads`, `UploadWorkers`, `UploadTheorems`, `ShownUploads`, `UploadSession`, `ResumeIdentities`, `UploadCleanup` |
| Route streaming: plan, chunks, signing, sender, batches, compaction, checksum | `TransferPlan`, `RouteStream`, `RouteBatches`, `Routes`, `RouteChecksum` |
| Streaming part hasher | `PartHasher` |
| Room bridge and its quorum check | `ReportSignatures`, `Bridge`, `BridgeBatches`, `BridgeSafety`, `BridgeLife`, `BridgeProgress`, `BridgeKeys`, `BridgeService` |
| Bounded worker pool | `WorkerPool` |

How the models are built. A protocol with concurrent tasks is a state machine: one step per critical section, or per
stretch between two awaits, with the theorems over every sequence of steps; a class with the program's fields then has
one method per step, whose contract says that it takes exactly that step. A sequential algorithm is a method with the
program's loops, proved against a specification. An exception or a crash is an early return at any call, with or without
the call's effect. `dafny verify dfyconfig.toml` checks everything.

What the environment is assumed to do:

- The website's ledger keeps one operation per charge subject, commits only what the relay asks it to commit, and sends
  the operation with every HTTP 200. (`Customers.OutcomesMeanWhatTheySay` shows that a 200 without a readable operation
  reads as released, which is no release.)
- The contract records a report as a whole, skips what it holds, and forgets nothing. One relay owns it.
- A listing is complete up to its newest row, no two equal completion times straddle the `maxPerOrganization` cut, no
  transfer finishes before it is created, and an organization's periods do not change their mind about a transfer.
- Final blocks do not change; the starts settings stay the same over a run.
- A provider does not give out an upload id twice for the same group. Each lease and each set of signers is registered
  once, as every call site does.
- The encoded size of a batch grows with the batch (`RouteBatches.WellSized`), as the split's binary search needs.

What the proofs found where code and expectation differ:

- Source entries of a compacted batch are pairwise distinct except for one family: routes that differ only in a nil
  against an empty header map get two equal entries (`Routes.EntriesRepeatIff` says exactly when, `Routes.TwinsRepeat` that they do). Every reference still
  leads back to its route's fields.
- A recovery request whose epoch equals, by value, the one the running iteration read is absorbed by that iteration
  (`RecoveryLeases.RepeatedEpochIsAbsorbed` says exactly when, over every interleaving).
- Multipart state keys join ids with colons, so two coordinates can have one key. Two workers that set them up at once
  create an upload each, and the registry keeps one (they also share a future, which the second would close again). Uploads are
  conserved exactly when no two jobs share a group (`UploadTheorems.ConservedIffOwnGroups`), which different ids without
  colons ensure (`ResumeIdentities.PlainIdsKeepKeysApart`); nothing checks the ids (`ResumeIdentities.ColonsShareAGroup`).
- A group may be shown with two upload ids. The callback, BeamCore or the two together hear of two exactly when they were
  told one, the setup that created it gave it up, and they were told again (`ShownUploads.TwoIdsIffToldAgain`). That
  needs a setup that created its upload and failed after telling (`ShownUploads.OneIdIsShown`), and each such failure has
  a run (`ShownUploads.LateFailureShowsTwoIds`). BeamCore takes one id while no manifest request takes effect and is
  reported as failed (`ShownUploads.OneIdIsTaken`), and of the ids reported as published there is always one.
- A dead upload may stay registered: exactly when its abort took effect and was reported as a failure, the cleanup
  aborted it, or its worker is about to drop it (`UploadTheorems.RegistryHoldsLiveUploads`). A replay then signs and
  publishes an id whose abort went unheard (`UploadTheorems.LostAbortIsReused`).
- A batch key of the Room bridge joins a Room id and a channel with a slash, and the configuration allows slashes in both.
  Two attestations may then share a key, the batch asks for the later one only, and the request for the other is counted
  as asked (`BridgeKeys.ConfusedRequestIsGivenUp`). Every batch asks for what each of its members wants exactly when no
  two configured pairs of a Room and a channel join to one path (`BridgeKeys.MembersAreAskedForIff`).

## Model

| member | source | states |
|---|---|---|
| `RelayPass.Relay.RunPasses` | packages/cre/relay/relay.ts:473-481 | over any number of passes, with a restart before any of them and any call throwing before or after its effect while others act in between: every committed receipt charge has its receipt on chain and every committed close its request cancelled, credits spent equal the committed subjects, job results have their two receipts, every owed transfer a saved cursor passed is paid for, released for good or listed with a record that is no receipt and will not become one, no cursor went back, every customer receipt sent had its charge held in its pass, at most 14 entries a report |
| `RelayPass.Relay.RunOnce` | packages/cre/relay/relay.ts:473-481 | one pass keeps all of that, wherever it stops; unless a call threw, it did everything RunReceipts does, asked for a hold for every request to be closed and for the cancel of each that was held; outside customers mode it charged and closed nothing |
| `RelayPass.Relay.RunReceipts` | packages/cre/relay/relay.ts:226-419 | unless a call threw: every open request and owed listed row was looked up, turned away or left to a stranger, and nothing else was; a finished transfer is planned as its receipt with its request id, a Room transfer as its receipt, another publication as its closure, a finished job as its two receipts and its result, for its owner, a customer's exactly when the website holds a credit of that customer; nothing else is planned or charged; requests are closed exactly when they are turned away or unseen for an hour; unless a report failed, all of it is on chain; every recorded receipt was asked to be committed; what was answered as paid or over is settled; each cursor moved to just where what is settled allows |
| `RelayPass.Relay.ByAddress` | packages/cre/relay/relay.ts:232-239 | every approved (revoked) address maps to an account that has it approved (revoked), and none is missing |
| `RelayPass.Relay.CollectOpen` | packages/cre/relay/relay.ts:241-273 | every open request is looked up, turned away or left to a stranger, whichever its requester and kind call for, and nothing else is pending; a customer's item is for the organization that approved the address, with the request, any other for Beam; one pending item a subject |
| `RelayPass.Relay.CollectListings` | packages/cre/relay/relay.ts:281-312 | exactly the listings of the customers whose transfers are listed and whose reading succeeds, each from a cursor that skips nothing; every owed row is pending |
| `RelayPass.Relay.AddListed` | packages/cre/relay/relay.ts:298-310 | each owed row becomes pending, and nothing pending is lost |
| `RelayPass.Relay.PlanJob` | packages/cre/relay/relay.ts:320-333 | exactly the two Room receipts of a finished job directly followed by its result, owned by Beam; nothing while it is unfinished |
| `RelayPass.Relay.Resolve` | packages/cre/relay/relay.ts:334-345 | a Room delivery becomes the Room subject of its publication, once found; other subjects stay as they are |
| `RelayPass.Relay.PlanOne` | packages/cre/relay/relay.ts:317-373 | what was seen is planned, a customer's receipt only as the website answers its hold, which is asked for once and for that customer; a subject is settled only when its charge is committed, released for good, or its listed record is no receipt and will not become one, and then it is; a request is closed only when unseen for an hour |
| `RelayPass.Relay.HoldFor` | packages/cre/relay/relay.ts:358-372 | held plans the entry, charged or released settles it, refused or unavailable leaves it waiting, as the website answered |
| `RelayPass.Relay.PlanAll` | packages/cre/relay/relay.ts:314-373 | everything pending that can be answered is planned or its charge was asked for, nothing else is planned, and job results follow their receipts |
| `RelayPass.Relay.WriteAll` | packages/cre/relay/relay.ts:375-403 | bounded reports in order until one fails; unless one failed or a call threw, all of the plan is on chain; every receipt recorded is asked to be committed, and settled when the answer is charged |
| `RelayPass.Relay.CommitBatch` | packages/cre/relay/relay.ts:392-402 | every receipt of a mined report is asked to be committed; those answered as charged are settled, and nothing else is |
| `RelayPass.Relay.NextCursors` | packages/cre/relay/relay.ts:406-415 | each listing's cursor moves to its next cursor, none goes back, none skips an unsettled owed transfer |
| `RelayPass.Relay.MoveCursors` | packages/cre/relay/relay.ts:405-417 | a successful save holds exactly those cursors |
| `RelayPass.Relay.RetryCommits` | packages/cre/relay/relay.ts:430-435 | every remembered close is asked to be committed again, and stays remembered exactly when the website was unavailable |
| `RelayPass.Relay.CloseOne` | packages/cre/relay/relay.ts:442-463 | a held charge leads to a cancel and a mined cancel to a commit; a closed request is paid or remembered as not yet committed |
| `RelayPass.Relay.CloseUnanswerable` | packages/cre/relay/relay.ts:429-466 | the same for all of them, each asked about once a pass; so many were cancelled as it says |
| `RelayPass.Relay.ReserveCharge` | packages/cre/relay/relay.ts:74-74 | the environment's hold: a throw or an error answer may follow either outcome |
| `RelayPass.Relay.CommitCharge` | packages/cre/relay/relay.ts:75-75 | may only be asked for what has happened |
| `RelayPass.Relay.WriteReport` | packages/cre/relay/relay.ts:58-62 | may only be sent with its charges held and its jobs covered; a mined report is on chain as a whole |
| `RelayPass.Relay.CancelRequest` | packages/cre/relay/relay.ts:69-70 | may only be sent with its charge held |
| `RelayPass.Relay.SaveTransferCursors` | packages/cre/relay/relay.ts:77-77 | may only move cursors forward, past nothing unsettled |
| `RelayRules.BatchCoversItsJobs` | packages/cre/relay/relay.ts:376-385 | in any batch of a plan whose earlier batches are on chain, every job result has its receipts in the batch or on chain |
| `RelayLedger.HoldKeepsSound` | packages/cre/relay/relay.ts:358-364 | holding a charge commits nothing and undoes nothing; afterwards it is paid, released for good, or commits |
| `RelayLedger.CommitKeepsSound` | packages/cre/relay/relay.ts:395-397 | committing what happened takes one credit exactly when it settles the subject for the first time; repeating it takes none |
| `RelayLedger.RecordKeepsSound` | packages/cre/relay/relay.ts:383-391 | recording a report whose jobs are covered keeps job results behind their receipts |
| `RelayLedger.CancelKeepsSound` | packages/cre/relay/relay.ts:449-455 | cancelling a request commits nothing |
| `RelayLedger.ElsewhereKeepsSound` | packages/cre/relay/relay.ts:207-216 | nothing others may do meanwhile breaks the ledger invariant |
| `RelayLedger.CursorsStaySafe` | packages/cre/relay/relay.ts:405-417 | later states keep every saved cursor safe |
| `RelayLedger.CutIsComplete` | packages/cre/relay/relay.ts:294-297 | sorted and cut at maxPerOrganization, a complete answer is complete up to the cut's newest row, provided no equal completion times straddle the cut |
| `RelayLedger.MarkedIsComplete` | packages/cre/relay/relay.ts:294-298 | every owed transfer after the cursor and up to the newest listed one is listed as owed |
| `RelayLedger.InitialCursorSkipsNothing` | packages/cre/relay/customers.ts:71-73 | an organization's first cursor skips nothing owed |
| `RelayLedger.MovedCursorSkipsNothing` | packages/cre/relay/relay.ts:405-417 | a moved cursor passes only owed transfers that are paid for, released for good or listed as what is no receipt, and is not behind the old one |
| `RelayLedger.PassedRowIsSettled` | packages/cre/relay/customers.ts:114-119 | an owed row that a justified cursor passes was listed and settled |
| `Customers.NextCursorIsFurthest` | packages/cre/relay/customers.ts:114-119 | the next cursor passes nothing pending and nothing unlisted, and is the furthest such cursor |
| `Customers.InitialCursorMissesNothing` | packages/cre/relay/customers.ts:68-73 | nothing finished by the initial cursor is owed, and the very next millisecond is covered by a period |
| `Customers.OutcomesMeanWhatTheySay` | packages/cre/relay/customers.ts:143-161 | held means exactly that a commit settles the charge (an expired hold included), charged that one did |
| `Receipts.AddMeaning` | packages/cre/relay/relay.ts:241-246 | one item a subject; nothing lost, nothing invented; a copy with a request id wins |
| `Receipts.JobNeedsBothPublications` | packages/cre/workflows/transfer-receipts/subjects.ts:193-217 | a job is answered exactly when both its publications ran as finished Room transfers, and then with both receipts |
| `Receipts.OnlyStartsCarryRequestIds` | packages/cre/workflows/transfer-receipts/subjects.ts:97-136 | only a request to start something carries a request id into its subject, or has none when its kind has no route |
| `RelayStarts.Relay.RunStarts` | packages/cre/relay/relay.ts:124-165 | at every crash point no request below the saved cursor is unhandled, the cursor did not go back, first attempts are in chain order; the scan ends Done with everything up to the finalized block handled, Stopped with the cursor at the request Studio was unavailable for, or Crashed exactly when a call threw |
| `RelayStarts.Relay.DeliverRange` | packages/cre/relay/relay.ts:132-160 | a range is handled, or everything below the block of the request in the way is; delivered counts the accepted ones |
| `RelayStarts.Relay.TransferRequests` | packages/cre/relay/relay.ts:129-131 | whatever order the node lists a range in, it is seen in chain order; ranges are final and no longer than allowed |
| `RelayStarts.Relay.Deliver` | packages/cre/relay/relay.ts:145-158 | an attempt goes to the workflow of its kind, and only after every request before it was attempted |
| `RelayStarts.SortsToChainOrder` | packages/cre/relay/relay.ts:129-131 | sorting any permutation of a block range by block and log index is chain order |
| `RelayStarts.RangeMeaning` | packages/cre/relay/relay.ts:127-131 | a range holds exactly the logs of its blocks, in order |
| `RelayStarts.EarlierAreHandled` | packages/cre/relay/relay.ts:132-149 | when a request is unavailable, every request of an earlier block is handled |
| `RelayStarts.RangeIsHandled` | packages/cre/relay/relay.ts:160-162 | a range whose requests are all handled lets the cursor pass it |
| `StableSort.SortMeaning` | packages/cre/relay/relay.ts:129-131 | the sort is a sorted permutation |
| `StableSort.SortIsStable` | packages/cre/bridge/bridge.ts:474-478 | items that tie keep their order |
| `StableSort.SortedUnique` | packages/cre/relay/relay.ts:129-131 | without ties there is one sorted order |
| `RecoveryLeases.NoRequestLost` | sdks/go/nats_control.go:731-812 | before close, a current lease without a live registered loop has finished an iteration that read the last epoch requested for it |
| `RecoveryLeases.OneLiveLoop` | sdks/go/nats_control.go:755-775 | a transfer has at most one uncancelled working loop; it is registered and its lease is current |
| `RecoveryLeases.MonitorIffLeased` | sdks/go/nats_control.go:666-727 | a shard has a hello monitor exactly when a current lease is on it |
| `RecoveryLeases.DisposedOnceWhenItLeaves` | sdks/go/nats_control.go:666-727 | a registered lease is never disposed while current, and exactly once when it leaves |
| `RecoveryLeases.RepeatedEpochIsAbsorbed` | sdks/go/nats_control.go:834-930 | whatever interleaves, a loop that comes to the end of an iteration absorbs a request made during it exactly when it is, by value, for the epoch the iteration read; otherwise it goes round again |
| `RecoveryLeases.StaleReleaseChangesNothing` | sdks/go/nats_control.go:692-702 | releasing a lease that is not current changes nothing |
| `RecoveryLeases.StaleLoopIsHarmless` | sdks/go/nats_control.go:834-930 | no step of an unregistered loop changes leases, loops, requests, epochs or monitors of others |
| `RecoveryLeases.StepInv` | sdks/go/nats_control.go:666-930 | every atomic section keeps the machine's invariant |
| `RecoveryLeases.ExecuteInv` | sdks/go/nats_control.go:666-930 | and so does every interleaving |
| `RecoveryLeases.NatsControl.constructor` | sdks/go/nats_control.go:230-257 | starts in the initial state |
| `RecoveryLeases.NatsControl.RegisterRecoveryLease` | sdks/go/nats_control.go:666-682 | is the Register step: the older lease is disposed, its loop stopped, its requested epoch kept |
| `RecoveryLeases.NatsControl.ReleaseLease` | sdks/go/nats_control.go:698-727 | is the Release step, also when another lease is expected |
| `RecoveryLeases.NatsControl.StartRunLocked` | sdks/go/nats_control.go:755-766 | starts a loop unless one of the same lease is registered |
| `RecoveryLeases.NatsControl.StopRunLocked` | sdks/go/nats_control.go:770-775 | stops the registered loop unless it belongs to the lease to keep |
| `RecoveryLeases.NatsControl.RequestAndStartLocked` | sdks/go/nats_control.go:740-745 | records the requested epoch and starts a loop |
| `RecoveryLeases.NatsControl.ContinueRecoveryLease` | sdks/go/nats_control.go:731-750 | is the Continue step |
| `RecoveryLeases.NatsControl.ObserveRuntimeEpochs` | sdks/go/nats_control.go:777-812 | a hello with both epochs is kept; exactly when the shard had another one, every current lease on it is asked to recover to the new one by a loop of its own; refines the Observe step |
| `RecoveryLeases.NatsControl.RecoveryRunCurrent` | sdks/go/nats_control.go:834-841 | is the loop's currency and the requested epoch |
| `RecoveryLeases.NatsControl.FinishIteration` | sdks/go/nats_control.go:892-908 | is the loop's Finish step |
| `RecoveryLeases.NatsControl.CloseCancelBackground` | sdks/go/nats_control.go:259-266 | cancels the parent context only |
| `RecoveryLeases.NatsControl.CloseClearLeases` | sdks/go/nats_control.go:285-294 | disposes every current lease and clears the maps, leaving registered loops in place |
| `TransferSigners.StoppedOnceWhenTheyLeave` | sdks/go/integrity.go:48-92 | signers are not stopped while current, and exactly once when they leave |
| `TransferSigners.FencedOwnerReleaseChangesNothing` | sdks/go/provider_transfer.go:82-85 | releasing stale signers and a stale lease leaves both machines as they were |
| `TransferSigners.StepInv` | sdks/go/integrity.go:48-92 | every registration, stop and submission keeps the invariant |
| `TransferSigners.Client.RegisterTransferSigners` | sdks/go/integrity.go:48-61 | is the Register step and returns the previous signers |
| `TransferSigners.Client.StopTransferSigners` | sdks/go/integrity.go:75-92 | is the Stop step: the transfer's submissions go, others stay |
| `RouteBatches.SplitRoutes` | sdks/go/nats_control.go:946-1009 | batches concatenate to the input, each allowed; fails with too large exactly when a single route is; no other allowed contiguous split has fewer batches |
| `RouteBatches.WidestWithinTarget` | sdks/go/nats_control.go:980-994 | the binary search finds the widest window within the target |
| `RouteBatches.NextBatch` | sdks/go/nats_control.go:979-1007 | the next batch is the longest allowed one, or the error of its first route |
| `RouteBatches.GreedyStaysAhead` | sdks/go/nats_control.go:978-1008 | after any number of batches a greedy split is at least as far as any other |
| `RouteBatches.GreedyIsOptimal` | sdks/go/nats_control.go:978-1008 | so it is a shortest split |
| `RouteBatches.SplitNeedsSmallRoutes` | sdks/go/nats_control.go:995-1004 | no split exists when some route alone is too large |
| `Routes.CompactSignedRoutes` | sdks/go/nats_control.go:1015-1078 | every source_ref leads back to its route's source fields, every entry restores its route's coordinates and destination fields; refs agree exactly for equal source keys; table entries repeat exactly when two routes differ in nil against empty headers only |
| `Routes.CompactRoute` | sdks/go/nats_control.go:1038-1075 | one wire entry restores its route |
| `Routes.CompactMetadata` | sdks/go/nats_control.go:1038-1058 | which metadata goes over the wire |
| `Routes.RefOf` | sdks/go/nats_control.go:1020-1037 | a key has one position in the table, and keeps it |
| `Routes.StampedIndexReachesTheWire` | sdks/go/client.go:672-689 | the delivery index on the wire is the one the sender validated |
| `Routes.PreferencesAgreeIff` | sdks/go/client.go:853-861 | field-first and metadata-first reading agree exactly when both coordinates agree or one is missing |
| `Routes.EntriesRepeatIff` | sdks/go/nats_control.go:1020-1037 | when entries of the source table repeat |
| `RouteChecksum.ChecksumForRoutes` | sdks/go/client.go:880-886 | is the XOR of the key digests, with their count |
| `RouteChecksum.Add` | sdks/go/client.go:868-874 | adds one digest |
| `RouteChecksum.ChecksumConcat` | sdks/go/client.go:863-886 | the checksum of a concatenation combines the checksums |
| `RouteChecksum.BatchingIsIrrelevant` | sdks/go/client.go:863-886 | the checksum of a stream is the combination of its batches' checksums |
| `RouteChecksum.OrderIsIrrelevant` | sdks/go/client.go:863-886 | any order of the same routes has the same checksum |
| `RouteStream.RouteStreamSender.AddRoute` | sdks/go/client.go:672-702 | a route is accepted exactly when its index is present, inside the stream and new, and is then stamped with it; the buffer is flushed exactly when it holds 1024 routes |
| `RouteStream.RouteStreamSender.EnqueueFlush` | sdks/go/client.go:782-841 | the buffer is split and scheduled behind what is scheduled, with consecutive batch indices |
| `RouteStream.RouteStreamSender.SendNext` | sdks/go/client.go:811-839 | the background sender acknowledges the next scheduled batch, or fails for good |
| `RouteStream.RouteStreamSender.WaitForPendingSend` | sdks/go/client.go:771-780 | waits until nothing is scheduled or a send failed |
| `RouteStream.RouteStreamSender.Complete` | sdks/go/client.go:739-769 | without an error the acknowledged batches concatenate to the routes added, batch indices are 0..n-1, the indices seen are exactly 0..total-1, and the checksum combines the batches' checksums |
| `RouteStream.RouteStreamSender.Schedule` | sdks/go/client.go:803-808 | numbers batches consecutively |
| `RouteStream.AcceptedCount` | sdks/go/client.go:739-743 | as many accepted routes as indices seen |
| `RouteStream.FullRange` | sdks/go/client.go:739-743 | as many distinct indices below the total as the total are all of them |
| `RouteStream.ScheduledRoutes` | sdks/go/client.go:782-812 | scheduling appends exactly the routes of the batches |
| `TransferPlan.StreamRoutes` | sdks/go/provider_transfer.go:432-546 | a well-formed plan always streams: no completion order gets a planned route rejected, it ends, and it fails only for a route that cannot be signed or does not fit, a cancellation, or a refused request; what is acknowledged is exactly the planned routes, each over its chunk, to its destination, with its index, the granted URLs, expiry, headers and controls of its own chunk and target, the planned part number where the destination takes one, and the first attempt's metadata |
| `TransferPlan.StartTarget` | sdks/go/provider_transfer.go:503-525 | one target starts signing; a completed route is flushed exactly when the window is full |
| `TransferPlan.StreamChunk` | sdks/go/provider_transfer.go:499-526 | hands out a chunk's coordinates; no more routes are being signed than the window allows, and completed ones are added in any order |
| `TransferPlan.FinishStream` | sdks/go/provider_transfer.go:527-546 | drains what is pending, then completes |
| `TransferPlan.FlushCompletedRoute` | sdks/go/provider_transfer.go:463-488 | adds the route of any pending coordinate |
| `TransferPlan.AddPlanned` | sdks/go/client.go:672-702 | a planned route of a fresh coordinate is never rejected |
| `TransferPlan.PlanChunkIterator.Next` | sdks/go/provider_signing.go:187-204 | visits every chunk of every source once, in order |
| `TransferPlan.MaterializePlanChunk` | sdks/go/provider_signing.go:206-263 | gives a chunk exactly when the source has it, with the byte range, identity and targets of the plan |
| `TransferPlan.PlanTarget` | sdks/go/provider_signing.go:231-256 | a target's coordinates and object key |
| `TransferPlan.PartRouteMetadata` | sdks/go/provider_signing.go:72-94 | which metadata a multipart part route keeps |
| `TransferPlan.TilesIffCovers` | sdks/go/provider_signing.go:217-225 | the chunks tile a source exactly if and only if every chunk before the last is full and none starts past the end; the last may be empty |
| `TransferPlan.DeliveryIndexInRange` | sdks/go/provider_signing.go:236-240 | delivery indices are below the route count |
| `TransferPlan.DeliveryIndexInjective` | sdks/go/provider_signing.go:236-240 | no two coordinates share one |
| `TransferPlan.DeliveryIndexSurjective` | sdks/go/provider_signing.go:236-240 | and every index is some coordinate's |
| `TransferPlan.AllArrived` | sdks/go/client.go:739-743 | when every coordinate arrived, exactly total indices were seen |
| `PartHasher.HashSource` | sdks/go/huggingface.go:505-568 | for any division into reads the ETags are the digests of the fixed-size split of the body, and the whole digest is that of the body; a read error fails |
| `PartHasher.WriteRead` | sdks/go/huggingface.go:532-551 | one read fills and closes parts as the split does |
| `PartHasher.SplitMeaning` | sdks/go/huggingface.go:531-561 | the split concatenates to the content, all parts full but the last, none empty |
| `PartHasher.SplitUnique` | sdks/go/huggingface.go:531-561 | and is the only such division |
| `PartHasher.ClosePart` | sdks/go/huggingface.go:545-549 | closing a part adds the digest of exactly partSize bytes |
| `PartHasher.FinishParts` | sdks/go/huggingface.go:559-561 | the last part is added only when it holds bytes |
| `PartHasher.EtagCountMatchesPartUrls` | sdks/go/huggingface.go:364-372 | the ETag count is the negotiated ceiling of size over part size, so it passes the check at finalization |
| `UploadTheorems.UploadsAreConserved` | sdks/go/provider_transfer.go:753-790 | for jobs with groups of their own: until disposal a returned and not aborted upload is in the registry, or its worker is about to put it there; a group has at most one |
| `UploadTheorems.OneIdIsPublished` | sdks/go/provider_transfer.go:792-809 | for jobs with groups of their own: however many replays, one upload id of a group is reported as published, and it stays registered |
| `UploadTheorems.LostAbortIsReused` | sdks/go/provider_transfer.go:780-788 | such an unreported abort does let a replay publish a dead upload: a run that does |
| `UploadTheorems.ResumeCreatesNothing` | sdks/go/provider_transfer.go:753-774 | when the group of every job was restored, no run before disposal creates or gives up an upload, and only restored ids are signed, shown and published, even when jobs share a group |
| `Uploads.StepInv` | sdks/go/provider_transfer.go:678-790 | every step of a worker, a stream, a fence or a cleanup keeps the invariant of jobs with groups of their own |
| `Uploads.StepIsLocal` | sdks/go/provider_transfer.go:678-740 | a worker's step changes nothing another group can see |
| `UploadSession.Session.SetupMultipartGroup` | sdks/go/provider_transfer.go:753-790 | the whole setup is a run of the machine whatever others do between its steps, also for the same group; it is ready exactly with the upload it published, and fails only when ownership was lost or a call of its own failed |
| `UploadSession.Session.ObtainUpload` | sdks/go/provider_transfer.go:758-773 | reuses what is retained, else creates and records |
| `UploadSession.Session.SignAndPublish` | sdks/go/provider_transfer.go:775-779 | signs, replaces the registered state, reports the identity, sends the manifest; every failure is one of these calls' or a lost ownership |
| `UploadSession.Session.FailSetup` | sdks/go/provider_transfer.go:780-788 | aborts, and forgets once aborted, exactly what this setup created, unless ownership was lost |
| `UploadSession.MultipartUploadRegistry.Clone` | sdks/go/provider_transfer.go:970-974 | an independent registry with the same states |
| `ResumeIdentities.RestoreProviderMultipartIdentities` | sdks/go/provider_transfer.go:883-929 | succeeds exactly when the identities match distinct expected groups, as many as there are; which error otherwise; what the registry then holds |
| `ResumeIdentities.Expect` | sdks/go/provider_transfer.go:889-914 | the expected groups, or the first pair's error |
| `ResumeIdentities.ExpectedMeaning` | sdks/go/provider_transfer.go:895-914 | the expected keys are exactly the multipart pairs' keys |
| `ResumeIdentities.RestoredCoversPlan` | sdks/go/provider_transfer.go:915-929 | accepted identities are a bijection with the plan's groups |
| `ResumeIdentities.ResumedTransferCreatesNothing` | sdks/go/provider_transfer.go:883-929 | after a successful restore every group streams, is shown and published under its saved id, and nothing is created, even when ids collide |
| `ResumeIdentities.QueueJobs` | sdks/go/provider_transfer.go:678-699 | queues one job for every multipart pair, in order, also when pairs share a state key; fails exactly when a restore's expectations do |
| `UploadCleanup.AbortCreatedUploads` | sdks/go/provider_transfer.go:1022-1067 | every candidate is asked for once, and forgotten when reported or returned as a failure |
| `UploadCleanup.CancelAndAbortProviderFailure` | sdks/go/provider_transfer.go:987-1001 | a cleanup reported complete has aborted every snapshotted upload, each successfully once over both attempts, whatever disposal clears meanwhile; which attempt comes before the cancellation, and what the other repeats |
| `UploadCleanup.CompleteCleanupLeavesNothing` | sdks/go/provider_transfer.go:579-585 | between streams, for jobs with groups of their own, a complete cleanup leaves no returned upload alive |
| `UploadCleanup.HandleStreamFailure` | sdks/go/provider_transfer.go:547-585 | the failure decisions: which releases, which continues the lease, and which alone aborts uploads, before Beam is told to cancel exactly when the stream had not begun, and a second time exactly what that attempt did not report |
| `UploadCleanup.ReleaseOwned` | sdks/go/provider_transfer.go:82-85 | stops these signers and releases this lease |
| `BridgeSafety.RepliesAreWriteOnce` | packages/cre/bridge/bridge.ts:491-494 | in every interleaving a set reply stays until a pump drops its request past retention |
| `BridgeSafety.AttestedRepliesAreQuorumBacked` | packages/cre/bridge/bridge.ts:236-334 | with registry signers, every attested reply carries exactly f+1 distinct signers the registry named, over a report of the configured workflow that answers the request |
| `BridgeSafety.ForwardingIsBounded` | packages/cre/bridge/bridge.ts:347-406 | attempts never exceed maxAttempts; any two forwards are paceSeconds apart |
| `BridgeSafety.EachForwardIsFair` | packages/cre/bridge/bridge.ts:372-395 | a forwarded batch leads with the oldest due request, has at most MAX_ATTESTATIONS subjects, and leaves a due request of its kind out only when full of others |
| `BridgeSafety.NothingDueIsIdle` | packages/cre/bridge/bridge.ts:350-382 | when nothing is forwarded, every unanswered request was asked too recently or the pace forbids it |
| `BridgeSafety.StepKept` | packages/cre/bridge/bridge.ts:172-494 | every step keeps a request's question and a set reply, or drops the request past retention |
| `BridgeSafety.StepInv` | packages/cre/bridge/bridge.ts:172-494 | every step keeps the invariant |
| `BridgeSafety.ContractPumpsVisitOnce` | packages/cre/bridge/bridge.ts:435-470 | in every run a contract pump comes only to requests that are there and unanswered, and to none twice |
| `BridgeBatches.ChooseMeaning` | packages/cre/bridge/bridge.ts:383-392 | what a chosen batch asks for, and for whom |
| `BridgeBatches.OldestLeads` | packages/cre/bridge/bridge.ts:383-392 | the oldest due request leads |
| `BridgeBatches.DueMeaning` | packages/cre/bridge/bridge.ts:372-378 | the due requests are those the rule names, oldest first |
| `BridgeBatches.TiesKeepTheirOrder` | packages/cre/bridge/bridge.ts:474-478 | requests of one second keep their order |
| `BridgeProgress.EveryReturnedForwardUsesAnAttempt` | packages/cre/bridge/bridge.ts:395-399 | without arrivals, the attempts that remain drop with each returned forward, so forwards are bounded |
| `BridgeProgress.ThenEverythingIsAnswered` | packages/cre/bridge/bridge.ts:350-371 | when no attempts remain and the last answers are overdue, one pump leaves nothing unanswered |
| `Bridge.AnswerForMeaning` | packages/cre/workflows/transfer-receipts/attestations.ts:63-76 | an answer is an entry of the report about that attestation; without one there is no such entry |
| `BridgeService.Service.HandleDelivery` | packages/cre/bridge/bridge.ts:172-209 | is the Deliver step: a known publication id changes nothing |
| `BridgeService.Service.HandlePoll` | packages/cre/bridge/bridge.ts:212-229 | a reply goes only to a signed poll that names its publication and room |
| `BridgeService.Service.CheckReport` | packages/cre/bridge/bridge.ts:236-290 | a report is accepted exactly when it is new, of the configured workflow, and signed by a quorum of the signers read or read again |
| `BridgeService.Service.TakeAccepted` | packages/cre/bridge/bridge.ts:292-334 | is the TakeReport step: each open request it has an entry about is attested with the first such entry, this report, its header and its signers when that fits a Room, and otherwise told that it is too large; the report is remembered |
| `BridgeService.Service.StartPumpCre` | packages/cre/bridge/bridge.ts:347-395 | is the PumpCre step |
| `BridgeService.Service.ChooseBatch` | packages/cre/bridge/bridge.ts:372-392 | the batch of the oldest due request |
| `BridgeService.Service.FinishPumpCre` | packages/cre/bridge/bridge.ts:396-405 | is the ForwardReturned step |
| `BridgeService.Service.StartPumpContract` | packages/cre/bridge/bridge.ts:413-439 | is the PumpContract step |
| `BridgeService.Service.VisitNext` | packages/cre/bridge/bridge.ts:439-470 | is the next step of a pass: the contract is asked to open a request exactly when it holds no answer, the request is not open and nothing of its subject was opened in this pass |
| `BridgeService.Service.DropPastRetention` | packages/cre/bridge/bridge.ts:480-489 | drops exactly what is past retention |
| `ReportSignatures.VerifyReportSignatures` | packages/cre/bridge/report.ts:75-96 | accepts exactly when f+1 distinct signers of the set can be found, and returns f+1 of them, those seen first |
| `ReportSignatures.QuorumIff` | packages/cre/bridge/report.ts:75-96 | a quorum exists exactly when at least f+1 members were seen |
| `ReportSignatures.SeenMeaning` | packages/cre/bridge/report.ts:79-92 | the signers seen are exactly the members some signature recovers to, each once |
| `WorkerPool.MapOrdered` | sdks/go/integrity.go:324-366 | in every interleaving the pool ends; indices are claimed in order, each once, until they run out or an error is recorded, after which none is claimed; that first error is returned, one that a mapping produced; without one every result is the map of its value |
| `WorkerPool.Claim` | sdks/go/integrity.go:341-349 | each index is claimed once, in order, and none after an error |
| `WorkerPool.MapOne` | sdks/go/integrity.go:350-360 | a result is stored at the index claimed |
| `WorkerPool.Record` | sdks/go/integrity.go:351-358 | the first error stays |
| `RelayPass.Relay.Route` | packages/cre/relay/relay.ts:250-272 | turned away exactly when it has to be, looked up exactly when it has to be |
| `RelayPass.Relay.WithoutEntry` | packages/cre/relay/relay.ts:347-356 | what is absent may be closed after its grace; a listed transfer whose record is no receipt is settled; the rest waits |
| `RelayStarts.Relay.DeliverAndSave` | packages/cre/relay/relay.ts:128-162 | one turn of the scan, with the cursor saved behind what is handled |
| `UploadCleanup.CleanupIsAttempts` | sdks/go/provider_transfer.go:991-1000 | what two attempts on the same clone amount to |
| `RelayPass.Relay.Gather` | packages/cre/relay/relay.ts:241-312 | everything the pass looks up or turns away; a throw of any of its reads ends it |
| `RelayPass.Relay.ReadListing` | packages/cre/relay/relay.ts:284-312 | one customer's listing: from the saved or the initial cursor, cut and marked, complete up to its newest row |
| `RelayPass.Relay.WriteAndMove` | packages/cre/relay/relay.ts:375-417 | what is recorded is on chain and asked to be committed, what was answered as charged is settled, and the cursors move by just that |
| `UploadTheorems.ConservedIffOwnGroups` | sdks/go/provider_transfer.go:678-790 | every run conserves the uploads exactly when no two jobs share a group id |
| `UploadTheorems.SharedGroupLosesAnUpload` | sdks/go/provider_transfer.go:713-774 | for any plan with two jobs of one group, a run with two live uploads in it, one outside the registry |
| `UploadTheorems.ShownIdsStay` | sdks/go/provider_transfer.go:775-809 | what the callback or BeamCore was told stays registered exactly until its setup gives it up; of the rest there is one id a group |
| `UploadSession.Session.PublishMultipartGroup` | sdks/go/provider_transfer.go:792-809 | ownership, then the callback, then the manifest, each of which may fail after its effect |
| `UploadSession.Session.IdentifyGroup` | sdks/go/provider_transfer.go:793-807 | is the Identify step: told or not, failed or not |
| `UploadSession.Session.SendManifest` | sdks/go/provider_transfer.go:808-808 | is the Publish step: taken or not, reported or not |
| `ResumeIdentities.OwnGroupsIffKeysDiffer` | sdks/go/provider_transfer.go:678-699 | each queued job has its own group exactly when no two multipart pairs share a state key |
| `ResumeIdentities.PlainIdsKeepKeysApart` | sdks/go/provider_transfer.go:863-865 | ids that differ and hold no colon keep all state keys apart, whatever the object keys |
| `ResumeIdentities.PlainIdsConserveUploads` | sdks/go/provider_transfer.go:678-790 | so every run of such a transfer conserves its uploads |
| `ResumeIdentities.ColonsConfuseKeys` | sdks/go/provider_transfer.go:863-865 | two coordinates with colons in their ids and one state key |
| `ResumeIdentities.ColonsShareAGroup` | sdks/go/provider_transfer.go:678-699 | a plan with different ids whose jobs share a group |
| `ResumeIdentities.RestoredFromJobs` | sdks/go/provider_transfer.go:915-929 | what a restore leaves is what the conservation theorem starts from |
| `RecoveryLeases.LastRequestDecides` | sdks/go/nats_control.go:892-908 | the same for the last request, whoever made it |
| `TransferPlan.CeilingIffNoChunkIsEmpty` | sdks/go/provider_signing.go:217-225 | the chunk count is the ceiling of the size over the chunk size exactly when the chunks tile the bytes and none is empty |
| `Routes.TwinsRepeat` | sdks/go/nats_control.go:1020-1037 | any route without headers and its copy with an empty header map do repeat an entry |
| `BridgeKeys.KeysAgreeIff` | packages/cre/bridge/bridge.ts:535-538 | for publication ids without a slash, two attestations share a batch key exactly when they are one, or name one publication by Rooms and channels that join to one path |
| `BridgeKeys.PublicationIdsHoldNoSlash` | packages/cre/bridge/webhook.ts:88-88 | what counts as a publication id holds no slash |
| `BridgeKeys.KeysDifferIff` | packages/cre/bridge/webhook.ts:86-119 | keys name one attestation each, over all a policy allows, exactly when no two configured pairs of a Room and a channel join to one path |
| `BridgeKeys.PlainRoomsDiffer` | packages/cre/bridge/webhook.ts:111-113 | which holds when no configured Room id has a slash, or only one Room is configured |
| `BridgeKeys.LastMemberDecides` | packages/cre/bridge/bridge.ts:383-392 | under each key a batch asks for the attestation of its last member with that key |
| `BridgeKeys.AskedForIffNotOverridden` | packages/cre/bridge/bridge.ts:383-395 | a member's own attestation is asked for exactly unless a later member with another attestation took its key |
| `BridgeKeys.MembersAreAskedForIff` | packages/cre/bridge/bridge.ts:383-395 | every batch of requests a policy allows asks for each member's own attestation exactly when the policy's paths differ |
| `BridgeKeys.SlashesConfuseKeys` | packages/cre/bridge/bridge.ts:535-538 | a policy that lists Room "a/b" with channel "c" and Room "a" with channel "b/c" allows two attestations with one key |
| `BridgeKeys.LaterOneIsAskedFor` | packages/cre/bridge/bridge.ts:383-392 | of two requests of a kind whose attestations share a key both become members, and the later one alone is asked for |
| `BridgeKeys.ConfusedRequestIsGivenUp` | packages/cre/bridge/bridge.ts:350-399 | a whole run: the batch asks for the later one only, counts the attempt of both, and where one attempt is all there is the earlier one is answered as having no receipt |
| `UploadTheorems.RegistryHoldsLiveUploads` | sdks/go/provider_transfer.go:775-788 | a registered upload is alive exactly unless its abort took effect and was reported as a failure, the cleanup aborted it, or its worker is about to drop it |
| `UploadTheorems.LossesStayAborts` | sdks/go/provider_transfer.go:775-788 | in every run, what the cleanup aborted or an unheard abort removed counts as aborted |
| `ShownUploads.TwoIdsIffToldAgain` | sdks/go/provider_transfer.go:753-809 | over every run the callback, BeamCore or both together hear of two upload ids of a group exactly when an id they were told was given up and they were told one again |
| `ShownUploads.TwoIdsAfter` | sdks/go/provider_transfer.go:775-809 | the same for one step: two ids were told after it exactly when two were before it, or it tells one again |
| `ShownUploads.OneIdIsShown` | sdks/go/provider_transfer.go:792-809 | while no setup that created its upload fails after an audience was told its id, that audience hears of one id a group, which stays registered |
| `ShownUploads.OneIdIsTaken` | sdks/go/provider_transfer.go:808-808 | BeamCore, with or without a callback, takes one id a group while no manifest request takes effect and is reported as failed |
| `ShownUploads.LateFailureShowsTwoIds` | sdks/go/provider_transfer.go:776-788 | for each way a first setup can fail late, a run in which everyone told of its upload hears of a second one |
| `RelayPass.Relay.CancelAndCommit` | packages/cre/relay/relay.ts:447-461 | with the charge held the request is asked to be cancelled; once it is, the commit is asked for, and remembered unless answered as charged |
| `RelayPass.Relay.HoldClosing` | packages/cre/relay/relay.ts:442-446 | held exactly when the website says so |
| `RelayPass.Relay.CloseAfter` | packages/cre/relay/relay.ts:473-481 | closing takes nothing of a pass back |
| `RelayRules.PlanIsWhatWasSeen` | packages/cre/relay/relay.ts:314-373 | what a pass may plan for an item is just what was seen of it: a finished transfer its receipt with the subject's request id, a Room transfer its receipt, another publication its closure, a job its two receipts and its result; nothing else |
| `RelayRules.FollowedAnswersAll` | packages/cre/relay/relay.ts:314-373 | a pass plans every entry that what it saw calls for, a customer's exactly when the website holds its charge, and nothing else; charged and released are settled |
| `RelayRules.UnseenMeaning` | packages/cre/relay/relay.ts:275-279 | a customer's request is closed as unseen exactly when its key saw nothing and an hour has passed since it was opened |
| `RelayRules.ListingMeaning` | packages/cre/relay/relay.ts:284-312 | a listing is read exactly when the switch is on or went off less than a week ago, from the saved cursor or the millisecond before the first period, and holds the cut rows with what each owes |
| `RelayRules.ListingsMeaning` | packages/cre/relay/relay.ts:281-312 | the listings of a pass are those of its customers, no more and no less |
| `RelayLedger.CutIsTheOldest` | packages/cre/relay/relay.ts:288-297 | as many rows as allowed, none finished after one that was cut off |
| `RelayLedger.MovesAsFarAsItMay` | packages/cre/relay/relay.ts:405-417 | the next cursor passes no owed row that is unsettled and nothing unlisted, and is the furthest such cursor |
| `RelayStarts.WorkflowMeaning` | packages/cre/relay/relay.ts:133-143 | standard requests go to the transfer workflow, deliveries and jobs to the Room workflow where the deployment has their routes |
| `RecoveryLeases.ObservationMeaning` | sdks/go/nats_control.go:777-812 | a hello with both epochs becomes the shard's; when the shard had another one every current lease on it has that epoch requested, as the last one, and a loop of its own; otherwise nothing is requested or started |
| `RecoveryLeases.NatsControl.AskShard` | sdks/go/nats_control.go:792-800 | asks every lease of the shard, in some order of the map |
| `RecoveryLoops.RequestsAreRecovered` | sdks/go/nats_control.go:843-932 | over every run, a current lease without a live loop was recovered to the epoch last requested for it: Beam said that nothing has to be done, or asked for a replay that was begun while current and succeeded |
| `RecoveryLoops.LoopsAreExplained` | sdks/go/nats_control.go:853-890 | over every run, a loop stands where the answers it got since it read its epoch have taken it |
| `RecoveryLoops.FinishedMeansRecovered` | sdks/go/nats_control.go:891-908 | what is recorded as finished was recovered to |
| `RecoveryLoops.LoopMoves` | sdks/go/nats_control.go:853-932 | a loop lets its lease go, leaves, backs off, or begins again each exactly for its reason |
| `RecoveryLoops.LoopStepsAreNextPc` | sdks/go/nats_control.go:853-932 | those steps change nothing but where the loop stands |
| `RecoveryLoops.FinishMoves` | sdks/go/nats_control.go:891-908 | an iteration that succeeded ends the loop unless another epoch was requested meanwhile |
| `RecoveryLoops.ReleasingReleasesItsOwn` | sdks/go/nats_control.go:855-857 | a loop that lets go releases its own lease when it is still current, and no other |
| `RecoveryLoops.DeferredUnregisters` | sdks/go/nats_control.go:843-852 | a loop that ends cancels itself and unregisters only itself |
| `TransferPlan.SignRoute` | sdks/go/provider_signing.go:672-726 | the route carries the granted URLs, expiry, headers and controls, and of the planned metadata what a part route keeps |
| `BridgeSafety.AnswerFromMeaning` | packages/cre/bridge/bridge.ts:292-334 | a request that is open and that the report has an entry about is attested with the first such entry, this report, its header and its signers exactly when that fits 64 KiB, and is told the reply is too large otherwise; every other request stays as it is |
| `BridgeLife.StepLives` | packages/cre/bridge/bridge.ts:172-494 | every step does to every request just what its kind says: when it is delivered, attested, counted, opened, given up, answered from the contract, failed or dropped, and never otherwise |
| `BridgeLife.FlightMeaning` | packages/cre/bridge/bridge.ts:347-395 | a CRE pump forwards exactly when the pace allows it and some request may be asked |
| `BridgeLife.PassMeaning` | packages/cre/bridge/bridge.ts:415-470 | a contract pump that may run visits every unanswered request, oldest first |
| `BridgeLife.PassEndsAfterTheLast` | packages/cre/bridge/bridge.ts:435-470 | a pass goes from request to request and ends after the last |
| `UploadWorkers.WorkerMoves` | sdks/go/provider_transfer.go:753-790 | every setup worker leaves each phase exactly for its reasons, and by no other worker's step |
| `UploadWorkers.RegistryMoves` | sdks/go/provider_transfer.go:768-787 | an upload is registered when it was created and again once its controls are signed, and taken out only after an abort that was reported, or on disposal |
| `UploadWorkers.StreamMeaning` | sdks/go/provider_transfer.go:441-545 | one stream at a time hands out all jobs and ends when they are handed out and their workers are done |
| `UploadWorkers.StreamsHandOutEachJobOnce` | sdks/go/provider_transfer.go:701-752 | over every run, nobody works outside a stream and a job under way is not handed out again |
| `ResumeIdentities.MatchesMeaning` | sdks/go/provider_transfer.go:894-926 | an accepted identity has the ids, object, size and part count of a multipart pair of the plan and an upload id that is not blank; where no two pairs share a key each such identity is accepted |
| `RouteChecksum.ChecksumOfOne` | sdks/go/client.go:868-890 | one route counts once, with the digest of its source, destination and chunk |
| `ReportSignatures.ConventionIsIrrelevant` | packages/cre/bridge/report.ts:82-83 | 27 and 28 mean the same signer as 0 and 1 |
| `ReportSignatures.SignerMeaning` | packages/cre/bridge/report.ts:79-91 | the address recovered from the signature, when it is a member |

## Left out

- Transport: NATS connections, message encoding, TLS, token fetching, retries, delays and jitter; a request is a step that succeeds or fails.
- Provider calls, presigning, sealed boxes, webhook signatures and HTTP parsing: foreign functions, or a flag that says whether a request was signed.
- Strings: addresses, UUIDs and hex are taken as normalized; hashes of keys are their arguments, so hash collisions are not modelled; the source key of a compacted route is its tuple of fields rather than its JSON text; `EqualFold` is modelled on ASCII.
- RecoveryLeases.NatsControl.ObserveRuntimeEpochs: neither clears the auth token nor the performance flag of a shard, which no other modelled section reads.
- RecoveryLeases.Step: registrations of a lease that was registered before are not modelled, since every call site builds a new lease.
- TransferSigners.Step: registrations of signers that were registered before are not modelled, since every call site builds new ones.
- Uploads.Step: an upload that a failed creation left behind at the provider is not counted, since its id never reached the SDK; what workers do after the lease was disposed is not constrained.
- UploadSession.Session.SetupMultipartGroup: the signed controls of a group and the contents of its manifest message are left out, and so is the panic of a future closed twice when jobs share a group.
- UploadCleanup.AbortCreatedUploads: an abort and the removal from the cleanup's own registry are one step, since no other task holds that registry.
- TransferPlan.StreamRoutes: signing is a function of the chunk, target and grant that may fail; the adaptive concurrency is a limit the caller gives, since any limit is covered.
- RouteStream.RouteStreamSender.Complete: the reply of the control plane is success or failure.
- WorkerPool.MapOrdered: cancellation is an error a mapping may return once an error is recorded.
- RelayPass.Relay.RunOnce: allowlist synchronization and the start of transfers are not part of it; starts are modelled by themselves in `RelayStarts`, with which receipts share no state.
- RelayPass.Relay.CollectListings: times are whole milliseconds.
- RelayPass.Relay.ReserveCharge: says for which organization a credit is held, not how the charge came about (`via`).
- RelayPass.Relay.PlanOne: what `Inputs.lookup` and `Inputs.observe` answer depends on the subject alone, while the program asks with the key of the item's reader; within one pass an item has one reader.
- BridgeKeys.Policy: Room ids that name a property every JavaScript object has are not modelled; an attested transfer id is any string.
- Bridge.Step: requests are kept in the order they were added; JavaScript's order of integer-like keys, and ids that name a property every object has, are not modelled. Saving the state to a file, loading it, and the reset of the pace on a restart are left out as well; the guarantees on replies and on the pace are those of one process.
- BridgeService.Service.CheckReport: malformed submissions are those `parse` refuses; decoding the header and the Capability Registry's answer is a foreign function.
- BridgeService.Service.HandlePoll: reply bodies are the reply itself; `answeredAt` is not kept.
- PartHasher.EtagCountMatchesPartUrls: the part URLs are their number; collecting them by part number from the upload action's header names, where "1" and "01" count as two parts with one URL, is not modelled.
- ReportSignatures.VerifyReportSignatures: recovery of an address is a foreign function of the report, its context and the normalized signature.
- The Python client repeats the streaming, restore and cleanup algorithms of the Go client and is not modelled again; the web client, CLI, adapters and configuration have no cross-function property.
