# Verified model of the media-restoration backend

The backend turns uploaded media into restoration jobs and runs them on leased GPUs. This
project models the protocols that its in-memory store defines, and proves what each of them
keeps over whole runs. External calls either return or raise, as an oracle says; clocks are
inputs; generated ids are fresh counters; hashed ids and cache keys are constructors, which
makes them injective.

- **A job run** (`JobRuntime`, on `JobStore`, `JobPipeline`, `SegmentRetry`, `RunSummary`, `GpuPool`
  with `GpuLeases`, `GpuLeaseLaws` and `GpuLeaseRaces`, and `Metering`). `Worker` follows `process_job` call by call:
  one segment after another, cache or retry loop, finalisation, handler and `finally`. An oracle says
  which of about thirty call sites raise and what other actors (cancellation, deletion, other jobs'
  leases, the autoscaler) do between any two steps.
- **Preview review and launch** (`PreviewLaunch`, `PreviewService`). The first is a state machine in
  which any number of requests, reviews and expiries interleave one repository call at a time;
  the second is the service in the source's own order, proved to be a run of that machine.
- **Stripe webhooks** (`StripeEvents`, `StripeWebhooks`, `RecentInvoices`). Claim, handle, fail,
  reclaim and crash, the service as a run of that protocol, and the bounded invoice list.
- **Metering and limits** (`Metering`, `RateLimits`, `SloHistory`).
- **Dispatch** (`DispatchQueue`): the sorted list as a FIFO per tier, and the drain loop.
- **Bytes** (`Utf8`, `DiffStat`): UTF-8-safe truncation and the numstat reader.
- **Keyframes** (`Keyframes`, on `Arithmetic`): evenly spread scene indexes.

`Outcomes`, `Arithmetic` and `Bags` hold what the others share.

## What turned out to be false

Each has a lemma or a contract with the exact condition.

- A charged job can end FAILED: exactly when the result was deliverable and the comparison with the
  estimate, or the final progress event or webhook, raises (`JobRuntime.Worker.ChargedButFailed`).
- No lease leaks as long as each call on the pool is taken whole. A reconciliation lists the leases
  and later writes its copies back: a job that is released in between holds its lease again exactly
  when that was a warm one, and a lease granted in between is lost exactly when it was a warm one
  (`GpuLeaseRaces.ReleaseUnderRefresh`, `GpuLeaseRaces.GrantUnderRefresh`, `GpuLeaseRaces.LeaseOfAnEndedJob`).
- Cancellation is kept only inside a window. When nothing raises and the job is not deleted, a run ends
  CANCELLED iff a request landed between the PROCESSING write and the read at the start of
  finalisation, or was there when the job was first read (`JobRuntime.Worker.ProcessJob`). A request
  granted before or after is overwritten (`JobRuntime.Worker.LostRequest`, `JobRuntime.Worker.LateRequest`).
- A redelivered job is reported COMPLETED, and charged, with an unfinished segment exactly when a
  segment stopped during its third attempt and none fails (`JobRuntime.Worker.StuckRun`).
- Overlapping runs of one user bill too little overage exactly when a stale read mattered
  (`Metering.LaggingReadsUnderbill`).
- Two allocations that read the lease table before either writes share a lease exactly when an
  idle warm one was there, and then a failure of the first idles the lease under the second
  (`GpuLeaseRaces.OverlappingGrants`, `GpuLeaseRaces.OverlappingUndo`).
- `launched` is not final: it stays exactly when no request of the owner is creating the job, rolling
  back or about to bind it (`PreviewLaunch.LaunchedForever`, `PreviewLaunch.LaunchedCanBeLost`).
- A preview generated again stays bound to its own job, but a claim can have two winners exactly when
  an earlier winner is still under way, and the rollback of the old one undoes the claim of the new
  (`PreviewLaunch.GenerateKeepsOneWinner`, `PreviewLaunch.OldWinnerUndoesNewClaim`).
- A claimed event is retried only as long as a delivery of it can still fail: one whose holder crashed
  never is (`StripeEvents.RetriedAgain`, `StripeEvents.CrashedForever`).
- Of two overlapping writes for different invoices the first is lost unless the list already showed it
  (`RecentInvoices.OverlappingWrites`, `RecentInvoices.LostPayment`).
- Draining loses a message exactly when the token lookup raises, because it happens after the pop
  and outside the try block (`DispatchQueue.Dispatcher.Drain`).
- A truncated comment can exceed its limit exactly when header and note alone do (`Utf8.CommentFits`).

## Model

| member | source | states |
|---|---|---|
| `JobRuntime.Worker.ProcessJob` | app/services/job_runtime.py:186-295 | Whatever call raises and whatever others do between the steps, each call on the lease pool taken whole: no lease names the job afterwards; another holder goes only when somebody releases its job, and comes only when somebody allocates for its job. A request lands exactly when the owner calls between the PROCESSING write and the read that closes the window. The stored job is over, deliverable only when paid, also when an exception escapes; the job is dead-lettered once when every segment failed or the worker failed it, and for nothing else unless the run escapes; a landed request leaves it cancelled or failed, unpaid, with no later segment touched, and it is cancelled only when a request landed or was there before. The owner pays exactly the billable minutes when `paid` and nobody else pays; a paid run is deliverable exactly when neither the estimate comparison nor the final announcement raises. The record returned is the one stored, and carries the overage of its minutes; a fresh job that is not cancelled or failed by the worker ends with finished segments, conserving summaries, counters that account for every segment, and outputs rendered for that very segment by this job or, when served from the cache, for an order of the same owner, upload and way of processing on the same piece. When nothing else raises and the job is not deleted, the status, the charge and the failure after the charge are those foreseen from segments and requests |
| `JobRuntime.Worker.LostRequest` | app/services/job_runtime.py:189-211 | A request granted between the first read and the PROCESSING write: the owner is told CANCEL_REQUESTED, and the job runs to its ordinary end |
| `JobRuntime.Worker.LateRequest` | app/services/job_runtime.py:600-705 | The same for a request granted after the read at the start of finalisation |
| `JobRuntime.Worker.ChargedButFailed` | app/services/job_runtime.py:255-292 | An undisturbed run: the owner is charged and the stored job is FAILED exactly when the result was deliverable and the estimate comparison or the final announcement raises |
| `JobRuntime.Worker.StuckRun` | app/services/job_runtime.py:354-354 | A redelivered job: stored as COMPLETED, and charged, with an unfinished segment exactly when a segment was stuck after three attempts and no segment fails |
| `JobRuntime.Worker.StuckStaysUnfinished` | app/services/job_runtime.py:354-354 | Processing leaves a segment unfinished exactly when it had three attempts, was unfinished, and is not in the cache |
| `JobRuntime.Worker.RunFresh` | app/services/job_runtime.py:192-295 | For a fresh job: finished segments, conserving summaries, counters that account for every segment |
| `JobRuntime.Worker.RunFound` | app/services/job_runtime.py:192-295 | The same with the `finally` block: its exception replaces the result, but the lease is gone and the stored job is over in every case |
| `JobRuntime.Worker.RunGuarded` | app/services/job_runtime.py:195-292 | The try block and its handler: what is stored when either ends, even by an exception, and a lease still held only if the `finally` block knows of it |
| `JobRuntime.Worker.RunBody` | app/services/job_runtime.py:196-269 | The try block: an unsupported tier raises, a request already there is acknowledged, otherwise the job is processed |
| `JobRuntime.Worker.RunProcessing` | app/services/job_runtime.py:204-269 | From the PROCESSING write on: vanished only when the job is gone, cancelled only when a request landed, with the charge and the segments each way leaves |
| `JobRuntime.Worker.RunLeased` | app/services/job_runtime.py:237-269 | Loop, finalisation and last announcement together: what was landed, charged, released and summarised; CANCELLED iff a request landed when nothing raises |
| `JobRuntime.Worker.FinalizeAndAnnounce` | app/services/job_runtime.py:255-269 | A result is returned only when the final progress event and webhook went out; CANCELLED only for a landed request; the charge stays when the announcement raises |
| `JobRuntime.Worker.HandleFailure` | app/services/job_runtime.py:270-292 | The job is stored as FAILED whether the handler returns or raises itself, dead-lettered once, and charged nothing |
| `JobRuntime.Worker.MarkFailed` | app/services/job_runtime.py:271-282 | FAILED is stored and the job dead-lettered once, unless it is gone |
| `JobRuntime.Worker.Start` | app/services/job_runtime.py:204-235 | The window opens with the PROCESSING write; a raise on the way leaves a lease exactly when one was granted |
| `JobRuntime.Worker.TakeLease` | app/services/job_runtime.py:212-213 | Allocation adds this job as the only new holder or raises and adds none; backlog and GPU type are those of the moment |
| `JobRuntime.Worker.AllocateNow` | app/services/runtime_ops.py:300-318 | Taken whole, the pool is reconciled at the number of queued jobs, at least one, and the lease is on the GPU type of the tier |
| `JobRuntime.Worker.RunSegments` | app/services/job_runtime.py:237-253 | Every segment ends as `Outcome` says for the cache and plans the run started with; segments from a landed request on are unchanged; it stops early only for a job that is gone or a request that landed |
| `JobRuntime.Worker.RunOne` | app/services/job_runtime.py:238-253 | One iteration: gone only if the job is not stored, cancelled only if a request landed, else processed; a request that landed before it leaves all segments alone |
| `JobRuntime.Worker.RunStarted` | app/services/job_runtime.py:253-253 | Processing one segment leaves the others and what they will become alone, because cache keys are per segment |
| `JobRuntime.Worker.ProcessSegment` | app/services/job_runtime.py:302-530 | A hit is served without an attempt, with an output rendered for an order of the same owner, upload and way of processing on the same piece; anything else runs the retry loop; only this segment, its plans and its cache key may change, and the cache gains this output exactly when the segment completed by an attempt and the store did not fail; the counters are published anew |
| `JobRuntime.KeyMeaning` | app/services/runtime_ops.py:122-144 | Two cache keys are equal iff owner, upload, index, start, end, profile, mode, version and pipeline variant all agree |
| `JobRuntime.Worker.OutcomeMeaning` | app/services/runtime_ops.py:147-203 | A hit is the cached output under the key of the request it was rendered for; anything else is recorded as a miss, or as a bypass when the lookup or the store failed, and holds its own rendering |
| `JobRuntime.Worker.FreshProvenance` | app/services/job_runtime.py:302-353 | Every completed segment of a fresh job: rendered here, or served from the cache for the same request |
| `JobRuntime.Worker.StoreOutput` | app/services/runtime_ops.py:206-217 | The output goes under the key of the order and piece it was rendered for, unless the store fails |
| `JobRuntime.Worker.RetryLoop` | app/services/job_runtime.py:354-530 | The loop equals its closed form: attempts, backoffs, last error, leftover plans |
| `JobRuntime.Worker.AttemptTowards` | app/services/job_runtime.py:354-530 | One pass either ends the segment as the closed form says or leaves the closed form unchanged |
| `JobRuntime.Worker.Attempt` | app/services/job_runtime.py:354-530 | One pass equals `Attempted`, and asks for another exactly while failures and attempts are left |
| `JobRuntime.Worker.JudgeAttempt` | app/services/job_runtime.py:366-530 | Planned failures come before reproducibility failures, which come before success |
| `JobRuntime.Worker.PassAttempt` | app/services/job_runtime.py:431-488 | A passing attempt is the only one that adds to the cache |
| `JobRuntime.Worker.FailAttempt` | app/services/job_runtime.py:489-530 | A failed attempt requeues with the next backoff or, the third time, gives up |
| `JobRuntime.Worker.ServeHit` | app/services/job_runtime.py:320-353 | A hit completes the segment with at least one attempt recorded |
| `JobRuntime.Worker.UpdateProgress` | app/services/job_runtime.py:533-596 | The counters published are those of the stored segments |
| `JobRuntime.Worker.Interfere` | app/db/phase2_store.py:1143-1174 | Every act of the moment takes effect: a request of the owner inside the window lands; the invariant of the run survives, and holders change only as the acts say |
| `JobRuntime.Worker.Patch` | app/db/phase2_store.py:1166-1174 | A write that leaves the status alone keeps a cancellation request |
| `JobRuntime.Worker.Overwrite` | app/services/job_runtime.py:204-211 | A status write happens only outside the window and overwrites whatever request was there |
| `JobRuntime.Worker.ChargeMinutes` | app/services/job_runtime.py:76-96 | Minutes are added to the owner alone, and exactly when neither price lookup raises |
| `JobRuntime.Worker.DueMeaning` | app/services/billing_service.py:248-251 | The minutes charged for an order: the minutes begun, one and a half times as many rounded up, or twice as many, by fidelity |
| `JobRuntime.Worker.ConsumeAndReconcile` | app/services/job_runtime.py:76-127 | The overage recorded compares the usage read before the charge with the limit read after it; the charge survives a comparison that raises |
| `JobRuntime.Worker.CancelJob` | app/services/job_runtime.py:839-856 | CANCELLED, with no minutes |
| `JobRuntime.Worker.Package` | app/services/job_runtime.py:692-785 | A manifest or delivery that raises turns a deliverable result into FAILED with its own error |
| `JobRuntime.Worker.ChargeFinal` | app/services/job_runtime.py:787-806 | Billable minutes for a deliverable status and none for another, exactly when both price lookups return |
| `JobRuntime.Worker.WriteOutcome` | app/services/job_runtime.py:693-716 | The terminal write: status, error and summaries of the segments, counters as last published |
| `JobRuntime.Worker.SettleBody` | app/services/job_runtime.py:682-806 | After the release: charged exactly when the result returned is deliverable, or when the comparison raised after the charge |
| `JobRuntime.Worker.SettleFailed` | app/services/job_runtime.py:807-836 | The handler after the release keeps the summaries and charges nothing |
| `JobRuntime.Worker.PackageOutcome` | app/services/job_runtime.py:682-786 | The terminal write, the package and the runtime event: stored as returned, a failed package turned into FAILED |
| `JobRuntime.Worker.Survey` | app/services/job_runtime.py:603-681 | The segments as they ended, the dead letter appended once, the SLO record |
| `JobRuntime.Worker.Settle` | app/services/job_runtime.py:682-836 | Either outcome: paid exactly for a deliverable result, up to the comparison that raises |
| `JobRuntime.Worker.CloseRun` | app/services/job_runtime.py:603-682 | The segments as read, the dead letter, and the lease given back even when the closing snapshot raises |
| `JobRuntime.Worker.FinalizeLive` | app/services/job_runtime.py:617-836 | Finalisation of a job that is not cancelled |
| `JobRuntime.Worker.FinalizeJob` | app/services/job_runtime.py:599-836 | The record read first decides about cancellation and closes the window: CANCELLED only for a landed request, else the status of the stored segments or FAILED |
| `JobRuntime.Worker.AcknowledgeCancel` | app/services/job_runtime.py:199-202 | A request present when the run looks is cancelled and announced without a charge |
| `JobRuntime.Worker.FreshOutcomes` | app/services/job_runtime.py:354-530 | From untried segments every outcome is terminal and keeps its piece |
| `JobRuntime.Worker.SummaryConserves` | app/services/job_runtime.py:637-654 | Over untried segments tiling the duration: hits + misses + bypassed = segments, GPU seconds + saved seconds = duration |
| `SegmentRetry.FreshSegmentLaw` | app/services/job_runtime.py:354-530 | From attempt 0: min(|F|+R+1, 3) attempts, completed iff |F|+R <= 2, failed otherwise, the first attempts-1 backoffs of 1 and 2 seconds, the class of the third failure as last error, the output and cache status of a success |
| `SegmentRetry.StepContinues` | app/services/job_runtime.py:489-509 | An attempt that requeues leaves what the loop will end with unchanged |
| `SegmentRetry.StepEnds` | app/services/job_runtime.py:431-530 | An attempt that does not requeue is where the closed form ends, in a terminal status |
| `SegmentRetry.EndsFinished` | app/services/job_runtime.py:354-354 | The loop leaves a terminal segment exactly when it started below three attempts or was terminal already: a redelivered segment that stopped during its third attempt stays stuck |
| `RunSummary.ReportConserves` | app/services/job_runtime.py:637-654 | The conservation laws for any terminal segments that tile the duration |
| `RunSummary.FinishedCounts` | app/services/job_runtime.py:533-596 | Over terminal segments the completed and failed counters account for every one |
| `RunSummary.StatusMeaning` | app/services/job_runtime.py:617-632 | COMPLETED iff every segment completed, FAILED iff every segment failed, over terminal segments |
| `RunSummary.CompletedMeansNoneBroken` | app/services/job_runtime.py:617-632 | COMPLETED says only that no segment failed |
| `RunSummary.DeliverableMeaning` | app/services/job_runtime.py:617-632 | A result is delivered, and charged, iff some segment completed or none failed |
| `RunSummary.FinalCacheMeaning` | app/services/job_runtime.py:643-654 | Hits, misses and bypasses each count the segments of that kind |
| `RunSummary.CountsAreSizes` | app/services/job_runtime.py:533-546 | The counters count the segments with that status |
| `RunSummary.SummarySnoc` | app/services/job_runtime.py:650-659 | Saved seconds are those of the hits, GPU seconds those of the finished others, segment by segment |
| `RunSummary.BrokenMeaning` | app/services/job_runtime.py:604-604 | The failed indexes are those of the failed segments, in increasing order |
| `RunSummary.ProgressSavings` | app/services/job_runtime.py:572-572 | While running, ten seconds per hit: never fewer than were saved, and exact iff every hit is a full segment |
| `RunSummary.ProgressMisses` | app/services/job_runtime.py:561-563 | While running, the misses reported are the finished segments that were not in the cache |
| `JobPipeline.BuildSegments` | app/services/job_pipeline.py:50-96 | The pieces partition [0, duration) in order, each of one to ten seconds |
| `JobPipeline.PartitionConserves` | app/services/job_pipeline.py:50-96 | The pieces of a partition sum to the duration |
| `JobPipeline.CoveredOnce` | app/services/job_pipeline.py:50-96 | Every second lies in exactly one piece |
| `JobStore.JobRepository.CreateJob` | app/db/phase2_store.py:947-1096 | The job is queued and every segment untried; pieces that tile the duration make it a fresh job |
| `JobStore.JobRepository.RequestCancellation` | app/db/phase2_store.py:1143-1164 | Only the owner, and only while the job is not over; otherwise nothing changes |
| `JobStore.JobRepository.UpdateJob` | app/db/phase2_store.py:1169-1174 | Patches the record, or raises when it is gone |
| `JobStore.JobRepository.UpdateSegment` | app/db/phase2_store.py:1176-1186 | Patches the segment with that index and no other, or raises |
| `JobStore.JobRepository.QueuedBacklog` | app/db/phase2_store.py:1391-1392 | The loop looks at each job once and ends with the number of queued ones |
| `GpuPool.Pool.Reconcile` | app/services/runtime_ops.py:229-297 | The pool becomes `Reconciled` and keeps every holder; the snapshot, counted from the list of records just written, agrees with the table |
| `GpuPool.Pool.GrowTo` | app/services/runtime_ops.py:239-261 | The growth loop ends with max(active, desired) active leases, all new ones idle |
| `GpuPool.Pool.Resize` | app/services/runtime_ops.py:231-269 | Growing and shrinking together give `Resized`, and the active list is that of the table |
| `GpuPool.Pool.RemoveIdle` | app/services/runtime_ops.py:262-269 | Deleting the first idle leases is shrinking |
| `GpuPool.Pool.RefreshAll` | app/services/runtime_ops.py:270-284 | Restamping the active leases one by one is `RefreshFirst`, and the records kept are the active ones of the table |
| `GpuPool.Pool.Allocate` | app/services/runtime_ops.py:300-374 | Exactly one new holder, on a worker nobody held, or none on any exception; warm iff fewer leases were busy than desired |
| `GpuPool.Pool.Grant` | app/services/runtime_ops.py:308-345 | The first idle warm lease, or else a new cold one |
| `GpuPool.Pool.UndoGrant` | app/services/runtime_ops.py:348-363 | The except branch gives the holders back as they were |
| `GpuPool.Pool.Release` | app/services/runtime_ops.py:377-415 | Takes away this job's lease and nobody else's, even when the closing snapshot raises |
| `GpuPool.Pool.FreeFirst` | app/services/runtime_ops.py:379-414 | The scan stops at the first lease of the job: a warm one goes idle, a cold one is deleted |
| `GpuPool.SecondReleaseFreesNothing` | app/services/runtime_ops.py:377-415 | Releasing a job that holds nothing changes no lease |
| `GpuLeaseLaws.ReconcileExact` | app/services/runtime_ops.py:229-297 | Afterwards max(desired, busy) active warm leases, and as many busy ones as before |
| `GpuLeaseLaws.ReconcileKeeps` | app/services/runtime_ops.py:229-297 | Names stay unique and no holder changes |
| `GpuLeaseLaws.ReconcileIdempotent` | app/services/runtime_ops.py:229-297 | Reconciling again at the same depth changes nothing and creates no worker |
| `GpuLeaseLaws.DesiredMonotone` | app/services/runtime_ops.py:220-226 | The target never falls when the queue grows |
| `GpuLeaseLaws.DesiredMeaning` | app/services/runtime_ops.py:220-226 | At most the threshold queued: the minimum; above it the minimum plus n steps for the one n >= 1 with threshold * n < depth <= threshold * (n + 1) |
| `GpuLeaseLaws.ReconciledTable` | app/services/runtime_ops.py:229-284 | Every lease left was there before or is a new idle L4 one; active ones carry the depth and target of this reconciliation; only idle warm ones can be gone |
| `GpuLeaseLaws.GrantMeaning` | app/services/runtime_ops.py:308-345 | The first idle warm lease, or a new cold one iff there is none, busy with this job on the GPU asked for |
| `GpuLeaseLaws.FreedMeaning` | app/services/runtime_ops.py:379-414 | The first lease of the job: idle where it stands when warm, gone when cold, the rest as it was |
| `GpuLeaseLaws.GrantHolders` | app/services/runtime_ops.py:308-345 | A grant adds one holder on a free worker |
| `GpuLeaseLaws.UndoGrantHolders` | app/services/runtime_ops.py:348-363 | Undoing a grant restores the holders, warm or cold |
| `GpuLeaseLaws.FreedKeeps` | app/services/runtime_ops.py:377-414 | Freeing keeps every other job's lease |
| `GpuLeaseRaces.OverlappingGrants` | app/services/runtime_ops.py:308-345 | Two allocations that both read before either writes: the first keeps its lease iff no idle warm lease was there to pick twice |
| `GpuLeaseRaces.OverlappingUndo` | app/services/runtime_ops.py:346-363 | When the first of them then fails, its except branch idles the lease the second holds iff an idle warm lease was picked twice |
| `GpuLeaseRaces.ReleaseUnderRefresh` | app/services/runtime_ops.py:231-284 | A release between the read and the write-back of a reconciliation: the ended job holds a lease again exactly when its lease was warm |
| `GpuLeaseRaces.GrantUnderRefresh` | app/services/runtime_ops.py:231-284 | An allocation in the same place: the grant is kept exactly when no idle warm lease was there to be granted |
| `GpuLeaseRaces.LeaseOfAnEndedJob` | app/services/runtime_ops.py:270-284 | One warm worker that stays busy for a job that has ended |
| `GpuLeaseRaces.WriteBackUninterrupted` | app/services/runtime_ops.py:270-284 | With nobody in between, the write-back is the refresh |
| `GpuLeaseRaces.WriteBackHolders` | app/services/runtime_ops.py:270-284 | The leases read are held as they were when read, whatever happened since |
| `Metering.OverageTelescopes` | app/services/cost_estimation.py:246-254 | Jobs run one after another bill together max(total - limit, 0) minus its starting value |
| `Metering.BillIndependentOfOrder` | app/services/cost_estimation.py:246-254 | Reordering the jobs does not change the bill |
| `Metering.BillIndependentOfSplit` | app/services/cost_estimation.py:246-254 | Splitting the same minutes differently does not change it |
| `Metering.LaggingReadsUnderbill` | app/services/job_runtime.py:83-102 | Jobs that read usage before others charge are never over-billed, and the bill telescopes iff every stale read was harmless |
| `Metering.LostOverageExample` | app/services/job_runtime.py:83-102 | Two jobs that read the same usage bill 16 overage minutes instead of 18 |
| `Metering.QuoteNeverTooHigh` | app/services/cost_estimation.py:196-197 | The overage quoted at launch never exceeds the one billed, with equality iff the usage in between was harmless |
| `Metering.BillableLaws` | app/services/billing_service.py:248-251 | Cutting a job in two is never cheaper, longer is never cheaper, only zero seconds are free |
| `Metering.BillableMeaning` | app/services/billing_service.py:248-251 | A minute is billed as soon as it has begun, once for Enhance, one and a half times rounded up for Restore, twice for Conserve; none for no seconds |
| `Metering.AlertsMeaning` | app/services/billing_service.py:254-258 | The thresholds of 80, 90 and 100 percent that are reached, in this order, none without a limit |
| `Metering.HardStopMeaning` | app/services/billing_service.py:57-59 | Stopped iff the estimated minutes, or a single one, would exceed limit and approval |
| `Metering.BillingService.Snapshot` | app/services/billing_service.py:299-317 | Opens the record at the current limit and changes nobody's usage |
| `Metering.BillingService.ConsumeMinutes` | app/services/billing_service.py:348-383 | Adds the minutes to one user at the current limit, clears the estimate, renews the alerts, ends a spent single-job approval |
| `Metering.BillingService.RecordEstimate` | app/services/billing_service.py:319-346 | Stores the estimate and the alerts of the usage so far |
| `Metering.BillingService.ApproveOverage` | app/services/billing_service.py:385-420 | A positive request or else the estimate; an upgrade approves none; refused otherwise |
| `Metering.SpentApprovalStops` | app/services/billing_service.py:348-383 | A single-job approval ends with the job that spends it: from then on every further job is stopped until limit or approval is raised |
| `PreviewLaunch.EveryRunIsFirm` | app/services/preview_generation.py:244-383 | Over every run, regenerations included: the bound id is absent or the one of preview and fingerprint, `not_launched` iff absent, `launched` implies an existing published job, at most one winning claim per not-launched period, one job per preview, nothing published before it exists |
| `PreviewLaunch.EveryOrderlyRunIsExclusive` | app/db/phase2_store.py:789-809 | And at most one winner of a claim at a time, the preview never free under its hands, as long as none is generated again while its winner is before its job |
| `PreviewLaunch.RunKeeps` | app/services/preview_generation.py:244-383 | The same from any such state |
| `PreviewLaunch.StepKeeps` | app/services/preview_generation.py:244-383 | Each single step keeps it; claims stay exclusive unless a preview is generated again under a winner |
| `PreviewLaunch.LaunchedLoadIsInert` | app/services/preview_generation.py:266-271 | A launch that loads `launched` answers with the bound job and changes nothing in the rest of any run |
| `PreviewLaunch.EndedIsInert` | app/services/preview_generation.py:244-383 | A run goes as if a request that ended took no further step |
| `PreviewLaunch.RefusalMeaning` | app/services/preview_generation.py:826-887 | Unknown or foreign, then deleted or overdue, then a saved or named fingerprint other than its own: turned away for the first of these reasons, and for no other |
| `PreviewLaunch.LoadMeaning` | app/services/preview_generation.py:254-281 | In every run a request gets past its load only naming the fingerprint of the preview or none, and only for an approved preview that is not launched; a launched one answers its job |
| `PreviewLaunch.ReloadMeaning` | app/services/preview_generation.py:291-303 | The reload after a lost claim checks the same, but not the review |
| `PreviewLaunch.FreshNeedsApproval` | app/db/phase2_store.py:699-717 | A preview just generated is never launched without a review |
| `PreviewLaunch.LaunchedUntil` | app/services/preview_generation.py:316-340 | The single steps that take `launched` back: a rollback or binding write of a request on its way, or a regeneration |
| `PreviewLaunch.LaunchedForever` | app/services/preview_generation.py:301-340 | A launched preview stays launched in every continuation without a regeneration iff no request with its owner is creating its job, rolling back or about to bind it |
| `PreviewLaunch.LaunchedCanBeLost` | app/services/preview_generation.py:316-329 | The family in which it is lost: a claim winner whose job is refused after another request launched |
| `PreviewLaunch.TwoUnderWay` | app/services/preview_generation.py:281-300 | A concrete run that reaches it |
| `PreviewLaunch.FinishRun` | app/services/preview_generation.py:301-383 | A request that comes to creating the job completes the launch when nothing fails |
| `PreviewLaunch.UndoRun` | app/services/preview_generation.py:316-329 | The rollback clears the launch fields whatever they are by then |
| `PreviewLaunch.GenerateKeepsOneWinner` | app/db/phase2_store.py:699-717 | Generating a preview again keeps its claims exclusive in every continuation iff no winner of an earlier claim is still before its job |
| `PreviewLaunch.OldWinnerUndoesNewClaim` | app/services/preview_generation.py:316-329 | Otherwise the rollback of the old winner takes the claim of the new one, who is still under way, and the preview can be claimed a third time |
| `PreviewService.Service.LaunchPreview` | app/services/preview_generation.py:244-383 | Among any other requests it is a run of the protocol and an answer names the determined, existing, published job; no request gets past its load unless it named the fingerprint of the preview or none; taken alone, one that names another changes nothing and is refused as stale, and the whole effect is `Solo` |
| `PreviewService.Service.SoloMeaning` | app/services/preview_generation.py:301-383 | The whole record after a request alone: bound and launched, pending after a failed dispatch, untouched after a refusal, claimed after a crash in creation |
| `PreviewService.Service.ReviewPreview` | app/services/preview_generation.py:207-242 | A review is written only after a look at which the preview was not launched; alone it never leaves a launch without approval |
| `PreviewService.Service.Complete` | app/services/preview_generation.py:301-383 | From creation to answer, with the rollback of a refused winner |
| `PreviewService.Service.ClaimAndComplete` | app/services/preview_generation.py:281-383 | Claim, reload after a lost claim, and completion |
| `PreviewService.Service.ClaimLaunch` | app/db/phase2_store.py:789-809 | Compare and set: wins iff the preview is visible and not launched |
| `PreviewService.Service.UpdatePreview` | app/db/phase2_store.py:765-787 | Patches a visible preview, nothing otherwise |
| `PreviewService.Service.LoadMutable` | app/services/preview_generation.py:826-887 | Refuses unknown, expired and stale previews in this order, and marks an overdue one deleted |
| `PreviewService.Service.Decide` | app/services/preview_generation.py:254-281 | Answer, turn away, claim or join, as `StageAfterLoad` says |
| `PreviewService.Service.LookAgain` | app/services/preview_generation.py:291-303 | After a lost claim the review is not looked at again; an answer is honest |
| `PreviewService.Service.SoloKeepsApproval` | app/services/preview_generation.py:272-278 | Requests taken one after another never launch what was not approved |
| `PreviewService.ReviewKeepsApproval` | app/services/preview_generation.py:222-230 | Under interference a review keeps launches approved iff the preview is not launched when it is written, or the review approves |
| `PreviewService.Service.RetryCompletes` | app/services/preview_generation.py:348-360 | After a failed dispatch a retry reuses the job and ends as if the first dispatch had gone out |
| `StripeEvents.EventsSucceedAtMostOnce` | app/db/phase2_store.py:504-576 | Over every interleaving: one holder per event, at most one audit entry, exactly one once a handled event is processed, none while it is failed |
| `StripeEvents.StepKeeps` | app/services/stripe_webhook_service.py:92-155 | Each step of claim, handler, failure and crash keeps it |
| `StripeEvents.SettledForever` | app/db/phase2_store.py:525-528 | A processed event, and one whose holder crashed, keeps its status and its audit entries in every run |
| `StripeEvents.RetriedAgain` | app/db/phase2_store.py:525-528 | Some continuation opens an event to a delivery again iff it is unseen or failed now, or a delivery of it can still fail |
| `StripeEvents.CrashedForever` | app/services/stripe_webhook_service.py:100-142 | A delivery that crashes while it holds its event: claimed for good, never logged |
| `StripeEvents.ProcessedSettles` | app/db/phase2_store.py:545-560 | A processed event has no holder left |
| `StripeWebhooks.Service.ProcessEvent` | app/services/stripe_webhook_service.py:92-155 | One delivery is a run of the protocol: a duplicate iff the event was seen and not failed, else processed or failed as its handler went; every stored invoice list is the first ten of its organisation's whole history |
| `StripeWebhooks.Service.Handle` | app/services/stripe_webhook_service.py:192-317 | The account is written before the audit entry, which is the last act |
| `StripeWebhooks.Service.ClaimEvent` | app/db/phase2_store.py:505-539 | Unseen and failed events are claimed, everything else is refused |
| `StripeWebhooks.Service.WriteAccountOf` | app/services/stripe_webhook_service.py:253-266 | Only this organisation's list changes, by moving the invoice to the front |
| `StripeWebhooks.SoloRun` | app/services/stripe_webhook_service.py:92-155 | What the protocol leaves of a delivery nobody interrupts |
| `RecentInvoices.TouchedIsRecent` | app/services/stripe_webhook_service.py:253-266 | Keeping ten after each event gives the first ten of the unbounded recency list |
| `RecentInvoices.RecencyMeaning` | app/services/stripe_webhook_service.py:253-266 | That list holds each invoice of the history once, as last seen, ordered by when it was last seen |
| `RecentInvoices.TopIsDistinct` | app/services/stripe_webhook_service.py:253-266 | Distinct ids, at most ten |
| `RecentInvoices.TenAreKept` | app/services/stripe_webhook_service.py:253-266 | As many rows as the history has different invoices, at most ten |
| `RecentInvoices.KeptMeaning` | app/services/stripe_webhook_service.py:253-266 | A row is kept iff it is its invoice as last seen and fewer than ten other invoices were seen after it |
| `StripeWebhooks.Service.StoredInvoices` | app/services/stripe_webhook_service.py:253-266 | So for the stored list of every organisation |
| `RecentInvoices.ReapplyChangesNothing` | app/services/stripe_webhook_service.py:253-266 | Applying the last event again changes no id and no position |
| `RecentInvoices.OverlappingWrites` | app/services/stripe_webhook_service.py:253-266 | Of two invoices whose handlers read the same list, the first write with its details survives iff the list read showed that very row already |
| `RecentInvoices.OverlappingLists` | app/services/stripe_webhook_service.py:253-266 | The list left is that of the two writes one after the other iff both carry the same invoice or the first row was already in front |
| `RecentInvoices.LostPayment` | app/services/stripe_webhook_service.py:253-266 | A paid invoice goes back to open when an event of another invoice overlaps with its own |
| `RateLimits.Limiter.Enforce` | app/services/rate_limits.py:29-42 | Admits iff the full log holds fewer than the limit in the last sixty seconds, although the stored list is pruned |
| `RateLimits.WindowBound` | app/services/rate_limits.py:29-42 | Any half-open window of sixty seconds of any run admits at most the limit |
| `RateLimits.PruneTwice` | app/services/rate_limits.py:33-33 | Pruning early loses nothing that still counts later |
| `RateLimits.RecentIsLastMinute` | app/services/rate_limits.py:33-33 | The stamps kept are those of the last sixty seconds |
| `SloHistory.Slo.Evaluate` | app/services/runtime_ops.py:548-575 | Compliant iff at most one job in twenty missed its target; a regression is reported only for a job slower than the percentile before it |
| `SloHistory.P95IsAnOrderStatistic` | app/services/runtime_ops.py:554-556 | The index is in range and the percentile is at most a bound iff at most one value in twenty lies above it |
| `SloHistory.FastJobNeverRaisesP95` | app/services/runtime_ops.py:557-557 | A job no slower than the percentile cannot raise it |
| `SloHistory.BudgetAfterJob` | app/services/runtime_ops.py:558-560 | The next verdict depends on the error budget alone |
| `SloHistory.RatioMeaning` | app/services/runtime_ops.py:549-551 | The ratio is the time over the target to half a millionth |
| `DispatchQueue.Dispatcher.Publish` | app/services/job_dispatcher.py:36-42 | The message joins the back of its own tier's FIFO, the other tiers are unchanged, nothing is lost |
| `DispatchQueue.Dispatcher.Pop` | app/services/job_dispatcher.py:112-116 | The oldest message of the best nonempty tier, and only that one leaves: no Museum message waits behind another tier, no Pro one behind Hobbyist or unknown |
| `DispatchQueue.Dispatcher.Drain` | app/services/job_runtime.py:164-183 | Queued, served and lost messages add up; a message is lost iff the token lookup raises after its pop; it ends with an empty queue or the maximum served, in queue order when workers enqueue nothing, and always ends when they enqueue finitely often |
| `DispatchQueue.Dispatcher.ServeNext` | app/services/job_runtime.py:167-182 | One round: a raising worker puts its message back |
| `DispatchQueue.AppendAndSort` | app/services/job_dispatcher.py:39-41 | Appending and sorting keeps the list strictly sorted with fresh sequence numbers |
| `DispatchQueue.HeadIsBest` | app/services/job_dispatcher.py:112-116 | The head is the oldest of the best tier |
| `DispatchQueue.TierOrder` | app/services/job_dispatcher.py:31-40 | Museum before Pro before Hobbyist before unknown tiers, which rank alike |
| `DispatchQueue.SortedIsUnique` | app/services/job_dispatcher.py:41-41 | Two strictly sorted lists of the same entries are equal, so any sort gives this one |
| `Utf8.TrimUtf8Bytes` | scripts/agents/codex_pr_review.py:126-140 | The text itself when it fits, dots alone when there is room for three or fewer, else `Trimmed`; a surrogate raises; the loop drops at most three bytes |
| `Utf8.TrimmedFits` | scripts/agents/codex_pr_review.py:126-140 | The result is valid UTF-8 within the limit |
| `Utf8.TrimmedIsMaximal` | scripts/agents/codex_pr_review.py:126-140 | No longer prefix of code points with three dots would fit |
| `Utf8.CutDecodes` | scripts/agents/codex_pr_review.py:133-139 | A cut encoding decodes iff it ends between code points, and then to the prefix |
| `Utf8.DecodeInvertsEncode` | scripts/agents/codex_pr_review.py:127-136 | Strict decoding gives back what was encoded |
| `Utf8.EncodeInvertsDecode` | scripts/agents/codex_pr_review.py:127-136 | Strict decoding accepts encodings only |
| `Utf8.Rfc3629Examples` | scripts/agents/codex_pr_review.py:127-127 | The encodings of the examples in section 7 of RFC 3629 |
| `Utf8.CommentFits` | scripts/agents/codex_pr_review.py:494-500 | The truncated comment is within 60,000 bytes iff header, note and two line ends are |
| `DiffStat.CollectChangedFiles` | scripts/agents/codex_pr_review.py:192-236 | The cursor strictly advances and the entries are those of `ReadAll` |
| `DiffStat.RecordAt` | scripts/agents/codex_pr_review.py:196-235 | One record at the cursor, and a cursor behind it |
| `DiffStat.PathsAt` | scripts/agents/codex_pr_review.py:204-226 | One path, or two behind a NUL |
| `DiffStat.Find` | scripts/agents/codex_pr_review.py:197-198 | The first occurrence from a position on |
| `DiffStat.RoundTrip` | scripts/agents/codex_pr_review.py:192-236 | Reading the printed form of any changes gives them back, tabs in paths included |
| `DiffStat.CountMeaning` | scripts/agents/codex_pr_review.py:231-233 | Nothing but a dash, for binary contents, and decimal digits is read as a count |
| `DiffStat.CutOutput` | scripts/agents/codex_pr_review.py:199-223 | Output cut off anywhere is read iff the cut is between records, and then as that many records |
| `DiffStat.PrintedExamples` | scripts/agents/codex_pr_review.py:196-235 | An edited, a binary and a renamed file as git prints them and as they are listed |
| `Keyframes.SpreadIndexes` | app/services/preview_generation.py:674-684 | Exactly `desired` strictly increasing indexes from first to last; the correction never changes one; all indexes when there are no more scenes than wanted |
| `Keyframes.SpreadMeaning` | app/services/preview_generation.py:674-684 | In range and within one half of the ideal position, and even when exactly half way |
| `Keyframes.SpreadGrows` | app/services/preview_generation.py:678-682 | Neighbouring rounded positions never meet |

## Left out

- JobRuntime.Worker.AllocateNow: every reconciliation, allocation and release, this run's and others', is one step of the run. In the source they are several repository calls without a lock, and overlapping ones break the promise about leases; `GpuLeaseRaces` says exactly when.
- JobRuntime.Worker.Interfere: nobody else creates this job again or processes it at the same time, so a redelivery while it runs is not modelled; a redelivery after it ended is, as a run that starts from any stored state.
- JobRuntime.Worker.Overwrite: every repository call is one step; two threads inside one call of the memory store (a read of the record and its write back) are not interleaved.
- JobRuntime.Worker.RunFound: process interruptions that are not exceptions of class Exception end a run without its handler and are not modelled.
- JobRuntime.Worker.UpdateProgress: percent, eta, rates, timings, quality and cost figures are left out, as is the text of progress events and webhooks.
- JobRuntime.Worker.AllocateNow: the tier is normalised, while the source compares the stored spelling without stripping blanks, so a padded "museum" gets the smaller GPU there.
- JobRuntime.Worker.ChargeMinutes: other runs of the same owner do not charge between this run's two billing calls; what happens when they do is stated in `Metering.LaggingReadsUnderbill`.
- JobRuntime.Worker.RunSegments: no other run stores into the shared segment cache or consumes this job's planned failures meanwhile; a run of another job over the same asset could turn a later miss into a hit.
- JobRuntime.Worker.Package: retention, classification and deletion of manifests are one call that returns or raises.
- Metering.BillingService.Snapshot: organisation overrides and price books only yield a monthly limit or raise.
- Metering.OverageTelescopes: bills are in minutes; rates and rounded amounts of money are left out.
- PreviewService.Service.LaunchPreview: with other requests in between, a preview can be rejected after it was loaded as approved (`PreviewService.ReviewKeepsApproval`); launch implies approval only for requests taken one after another.
- PreviewLaunch.EveryRunIsFirm: two saves of one upload's configuration never share a time stamp, so the stamp determines the payload saved with it; which previews may be generated again (expired or deleted ones) is not checked, any may.
- PreviewService.Service.LaunchPreview: a job created again under the same id is reset to queued, which is not part of the launch state.
- StripeWebhooks.Service.ProcessEvent: the organisation an event belongs to is an input, None when it cannot be resolved; of the account only owner, time and invoices are kept.
- StripeEvents.EventsSucceedAtMostOnce: deliveries of one event id agree on the kind of the event.
- SloHistory.Slo.Evaluate: the ratio is the exactly rounded quotient in millionths; a floating-point quotient can differ in the last place. The rank is the exact ceiling of 19n/20, which the floating-point product also gives for every list that fits in memory.
- RateLimits.Limiter.Enforce: stamps are exact numbers and the clock does not go back; which limit a tier has is a setting.
- DispatchQueue.Dispatcher.Drain: the workers are a list of what each run enqueues and whether it raises; the jobs themselves are modelled in `JobRuntime`.
- Utf8.CommentFits: only the branch that truncates is stated; the other one has just measured the body it returns.
- DiffStat.CollectChangedFiles: counts are a dash or decimal digits, as git prints them; signs, blanks and underscores, which Python's int also reads, are refused.
- DiffStat.RoundTrip: paths are compared as bytes, since decoding with surrogate escapes loses nothing.
- Keyframes.SpreadIndexes: quotients are exact; with as few scenes as there are, the floating-point quotient rounds the same way.
- Supabase repositories, object storage, model and payment SDKs, routing and the web client: foreign calls or pass-through.
- Era detection, fidelity catalogues, schema validation, access control, compliance and retention tables, metrics text: table lookups or single-branch facts.
- The era-detection repository's save_job, which overwrites a job record from another interface.
- The Pub/Sub dispatcher and the Redis segment cache: only their memory counterparts are modelled.
