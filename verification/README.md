# Transcodex: a verified model of the job lifecycle

Transcodex accepts source videos as jobs, executes one or more attempts per job on any number of
workers, and publishes one visible set of outputs. PostgreSQL holds jobs, attempts, outputs and
worker rows; Redis holds a recoverable scheduling index; reapers repair what crashes leave behind.
The promised contract is at-least-once attempt execution with at-most-once visible completion.

This project models that machinery in Dafny and proves the contract and its supporting properties
for every run, every interleaving and any number of workers and reapers.

How the modules fit together:

- `Database` gives every PostgreSQL transaction as one total function on the tables, and `Event` as
  one committed transaction by anybody with any arguments. `Invariant` shows that every transaction
  has one of four shapes and keeps the invariant; `Lifecycle` proves the whole-run properties of
  arbitrary sequences of transactions, and `History` reads every column of a row off the history of
  the row. Nothing there depends on Redis, on clocks or on leadership.
- `Postgres.Store` is the same set of tables as a live object; its methods follow the SQL statements
  and are proved equal to the transaction functions. `Actors` has the API and worker code that runs
  them, with transactions of everybody else in between.
- `PriorityQueue` is the Redis index with its two Lua scripts; `QueueRefinement` relates it to a
  plain list of entries in arrival order.
- `Sweep` is one reaper sweep as code (three loops over scanned rows) together with the function of
  the tables that it computes.
- `System` is the interleaving machine: program counters for API requests, workers and reapers, the
  tables, the Redis index, the object store, the clock, and fault steps. Over all its runs,
  `Stranding` and `Announcements` follow the queue entries, `Ordering` the priorities, `Publishing`
  the objects, `Scans`, `Leases` and `DeathPass` what reapers see and do, and `Guarantee` states the
  promise to clients. `Journeys` puts runs together: `Progress` continues any run to the end of any
  job, and `HealthyWorker` exhibits one run.
- `Leadership` is the timed reaper lock; `Outputs` the sequential and parallel output generation and
  the output-set checker; `ObjectKeys` the attempt-scoped keys; `UploadReader` the size-limited
  upload stream and the upload that it feeds.

The main results, each over every run of the system or of its transactions:

- visible completion: `AtMostOneCompletion`, `AtMostOnceVisibleCompletion`, `CompletedJobIsPublished`,
  `UrlDeterminesRow`, `ClientSeesOneCompleteSet`, `StaleWorkerIsInvisible`;
- retries: `ExactRetryAccounting`, `BoundedLifecycle`, `LeaseRecoveryChargesOnce`,
  `DeathPassAfterRecovery`;
- no lost work: `NoStrandedJob` with `DroppedEntryStrands`, `AnnouncementsConserved`,
  `ReconciliationRepairs`, `EveryJobCanEnd`;
- order: `QueueRefinesSimpleQueue`, `DrainAfterEnqueues`, `QueueAlwaysOrdered`;
- recovery: `SweepChargesOnce`, `SecondSweepIsNoOp`, `LeasePassRetires`, `DeathPassRetires`, and what
  the scans select: `LeaseScanExact`, `DeathScanExact`, `QueueScanExact`;
- leadership: `OverlapNeedsLapse`, `LeadershipExclusion`, `LateTickIsHarmless`;
- uploads and outputs: `StoreUpload`, `RunParallel`, `CompleteOutputSet`.

Where code and documentation disagree, the model follows the code:

- The design (docs/specs/portfolio-reliability-observability-benchmarking.md, line 151) asks that
  marking a worker dead does not consume a further retry once the attempt it held has been
  recovered. The worker-death pass names no attempt (reaper/internal/reaper/sweep.go, line 60), so
  the code does not keep this. `DeathPassHitsHealthyWorker` is a run of the whole system, under any
  configuration and without a fault step, that breaks it. `DeathPassAfterRecovery` gives the exact
  condition: after the attempt has ended, the pass changes nothing if and only if the job is not
  being processed again, by whichever worker, the dead one included; otherwise it spends one more
  attempt. `DeathPassScope` says separately whose attempt that is.
- The design (same file, line 100) reads the retry counter as the number of failed or expired
  attempts. A job that dies does not count its last attempt: `DeadJobUndercounts` shows a run,
  `ExactRetryAccounting` gives the exact count and says that the design's reading holds exactly for
  jobs that are not dead, and that a job is dead exactly when it has spent its budget plus one.
- The reaper does not look at the lease again inside its recovery transaction, so lease statements
  (`PendingWasExpired`) are about the moment of the scan.

Identifiers are numbers with an injective, slash-free text. A clashing identifier is not assumed
away: the primary keys reject it, as in the code. Preconditions such as `Linked`, `Inv` and `IsRun`
say "a state or run that starts from the empty database"; `InvLinks` and `AlwaysInv` discharge them.

## Model

| member | source | states |
|---|---|---|
| Postgres.Store.CreateQueuedJob | api/internal/server/handlers.go:402-420 | the INSERT takes effect exactly for a new id and a non-negative budget, and adds a queued job with the given priority and budget, no retry spent, entered and updated now |
| Postgres.Store.MarkProcessing | worker/internal/worker/processor.go:129-168 | the claim is refused, rejected by a constraint, or creates the attempt and points the job at it; outcome and tables in every case |
| Postgres.Store.RenewAttemptLease | worker/internal/worker/processor.go:197-208 | the lease moves exactly when the attempt is running and still current |
| Postgres.Store.CompleteJob | worker/internal/worker/processor.go:402-443 | stale attempts publish nothing; a current one completes job, attempt and all output rows in one go |
| Postgres.Store.HandleFailure | worker/internal/worker/processor.go:445-491 | a current attempt fails and its job is queued again or dies; tells under which priority to enqueue |
| Postgres.Store.RetireCurrent | reaper/internal/reaper/sweep.go:145-190 | the recovery transaction, with and without an expected attempt |
| Postgres.Store.MarkWorkerLost | reaper/internal/reaper/sweep.go:49-57 | the worker row becomes dead and names no job, its heartbeat stays |
| Postgres.Store.SetWorkerBusy | worker/internal/worker/processor.go:234-243 | the row of a registered worker becomes busy on the job, with a fresh heartbeat |
| Postgres.Store.SetWorkerIdle | worker/internal/worker/processor.go:245-254 | the row of a registered worker becomes idle, names no job, and has a fresh heartbeat |
| Actors.Api.Submit | api/internal/server/handlers.go:402-426 | the row is committed, with the submitted priority and the configured budget, before the queue hears of the job; an accepted new job goes to the end of the tier of its priority; a rejected one changes neither |
| Actors.Worker.RenewLeaseUntilDone | worker/internal/worker/processor.go:170-195 | the ticker renews until a renewal finds the lease lost, with arbitrary transactions of others before every tick |
| Actors.Worker.ReportFailure | worker/internal/worker/processor.go:445-497 | the failure is committed first; the job is enqueued again exactly if the attempt was current and retries are left |
| Actors.Worker.ProcessJob | worker/internal/worker/processor.go:25-65 | claim, busy, renewals, report and idle compute one function of the tables, the queue and what others commit in between; tells every outcome apart; the worker row ends idle, on no job, heard of at the end |
| Actors.LostIsStale | worker/internal/worker/processor.go:188-192 | a worker that finds its lease lost has lost it for good, whatever the others do |
| Actors.ReportMeans | worker/internal/worker/processor.go:56-62 | whatever others commit meanwhile, the report of a superseded attempt changes nothing; a current one completes the job with exactly the outputs made, or ends the attempt and queues or kills the job |
| Actors.UndisturbedWorker | worker/internal/worker/processor.go:25-65 | a worker nobody interferes with is busy on the job, keeps a lease of one TTL from its claim or last renewal, and reports for the current attempt |
| Invariant.ClaimAlwaysTakesEffect | worker/internal/worker/processor.go:148-163 | in a reachable database only a clashing id or an unregistered worker can stop the claim of a queued job; the unique constraint never rejects it and the unchecked UPDATE always finds its row |
| Invariant.StepShape | worker/internal/worker/processor.go:129-497 | every transaction is cosmetic, creates one job, starts one attempt, or ends the current attempt of one job |
| Invariant.StepKeepsInv | reaper/internal/reaper/sweep.go:145-196 | every transaction with any arguments keeps the invariant of jobs, attempts, numbering and outputs |
| Invariant.AlwaysInv | migrations/000002_attempts_and_timings.up.sql:14-43 | the invariant holds after every run of transactions from the empty tables |
| Lifecycle.RunningAttemptBijection | worker/internal/worker/processor.go:158-163 | in every reachable database the running attempts are exactly the current attempts of processing jobs |
| Lifecycle.OneLegalEdge | worker/internal/worker/processor.go:402-497 | every transaction, whatever Redis or other sweeps do, is a stutter or moves exactly one job along one legal edge |
| Lifecycle.AtMostOneCompletion | worker/internal/worker/processor.go:411-443 | the number of successful completions of a job in a run is one if it is completed and zero otherwise; its rows carry the completing attempt; uncompleted jobs have no rows |
| Lifecycle.CompletionIsFinal | worker/internal/worker/processor.go:402-443 | after completion the job row and its output rows never change |
| Lifecycle.StaleForever | worker/internal/worker/processor.go:197-216 | an attempt that is no longer current is never current or running again, and keeps everything but durations |
| Lifecycle.StaleAttemptIsInvisible | worker/internal/worker/processor.go:197-232 | renew, phase, complete and fail for a stale attempt change nothing in the tables at any later time; durations change only themselves |
| Lifecycle.FailAfterComplete | worker/internal/worker/processor.go:57-62 | completing and then reporting failure equals completing |
| Lifecycle.LeaseRecoveryChargesOnce | reaper/internal/reaper/sweep.go:93-97 | two lease-pass recoveries of one attempt, with anything in between, charge one retry |
| Lifecycle.DeathPassScope | reaper/internal/reaper/sweep.go:59-62 | the pass, run for worker w and the job its row names, touches only attempts of w if and only if the current attempt of that job, if any, is one of w; it changes nothing if and only if the job is not being processed |
| Lifecycle.DeathPassAfterRecovery | reaper/internal/reaper/sweep.go:59-62 | at any time after the attempt that w held of the job has ended, the pass changes nothing iff the job is not being processed again by anybody; otherwise it spends exactly one more attempt, as a retry iff retries are left and as the death of the job iff not |
| HealthyWorker.DeathPassHitsHealthyWorker | reaper/internal/reaper/sweep.go:25-66 | for every configuration, a fault-free system run ending in the recovery that follows a scan of worker 1, whose own attempt had ended; it expires the current attempt, within its lease, of worker 2, which is busy and not stale, and charges a second retry |
| Lifecycle.ExactRetryAccounting | reaper/internal/reaper/sweep.go:166-187 | retry counter plus one if dead equals failed plus expired attempts; a job is dead iff these number budget plus one; numbers are exactly 1..k; the budget is never exceeded |
| Lifecycle.DeadJobUndercounts | worker/internal/worker/processor.go:476-477 | a dead job with one spent attempt and retry counter zero |
| Lifecycle.BoundedLifecycle | worker/internal/worker/processor.go:476-483 | a job's transitions number exactly 2*max+2 minus what its measure has left, hence at most 2*max+2 |
| Lifecycle.CompletedHasAllOutputs | worker/internal/worker/processor.go:422-433 | a completed job has a row for every output type |
| Lifecycle.TwoQueryReader | api/internal/server/handlers.go:133-154 | the endpoint's two queries, with anything in between, return all types of the one completing attempt |
| History.JobOrigin | api/internal/server/handlers.go:411-414 | in every run priority and budget of a job are those of the submission that created it |
| History.JobTimes | migrations/000001_init_schema.up.sql:50-62 | updated_at is the time of the last transaction that wrote the row, queue_entered_at of the last that queued the job, completed_at of the one that completed it |
| History.AttemptOrigin | worker/internal/worker/processor.go:148-153 | every attempt stems from one claim that found its job queued, and keeps its job, worker, number and queue entry time |
| History.AttemptEnd | worker/internal/worker/processor.go:434-472 | status, failure category and finish time of an attempt are those of the one transaction that ended it; a running attempt has neither |
| History.AttemptLease | worker/internal/worker/processor.go:197-208 | lease and heartbeat of an attempt are those of its claim or of its last renewal while running |
| History.AttemptNotes | worker/internal/worker/processor.go:210-232 | the phase is the last one noted while the attempt ran, unless it succeeded; the durations are the last ones noted at any time |
| PriorityQueue.HighestTier | pkg/queue/queue.go:28-28 | the search returns the greatest indexed tier |
| PriorityQueue.RedisQueue.Push | pkg/queue/queue.go:18-56 | out-of-range priorities are refused; a known id is a no-op; otherwise list, index and set grow together |
| PriorityQueue.RedisQueue.Pop | pkg/queue/queue.go:27-41 | takes the head of the highest tier and keeps list, index and set in step |
| QueueRefinement.QueueRefinesSimpleQueue | pkg/queue/queue.go:18-41 | after every sequence of operations a pop returns the earliest entry of the highest priority present |
| QueueRefinement.QueueRepresentation | pkg/queue/queue.go:18-41 | membership is the disjoint union of the tier lists, no repeats, a tier is indexed iff nonempty; the empty-tier branch is unreachable |
| QueueRefinement.DrainAfterEnqueues | pkg/queue/queue.go:43-68 | draining after any enqueues gives the stable descending sort of the first accepted occurrences |
| QueueRefinement.StableSortIsUnique | pkg/queue/queue.go:27-41 | the stable sort is unique, so the drain order is fully determined |
| Sweep.Reaper.RequeueJob | reaper/internal/reaper/sweep.go:145-196 | transaction, then enqueue iff the job was put back; errors exactly when the queue refuses the priority |
| Sweep.Reaper.RecoverDeadWorkers | reaper/internal/reaper/sweep.go:25-66 | marks exactly the stale busy workers dead and retires each named processing job once, whatever the row order |
| Sweep.Reaper.RecoverOrphanedJobs | reaper/internal/reaper/sweep.go:68-99 | retires exactly the attempts past lease and grace |
| Sweep.Reaper.RecoverMissingQueueMessages | reaper/internal/reaper/sweep.go:101-143 | every job queued and not updated for the threshold is in the queue afterwards, and nothing else is added; each new member stands in the tier of its stored priority, behind what was there |
| Sweep.Reaper.RestoreEntry | reaper/internal/reaper/sweep.go:198-207 | a missing entry is enqueued under the stored priority, at the end of its tier |
| Sweep.Reaper.Sweep | reaper/internal/reaper/sweep.go:12-23 | the three passes compute a function of the tables that does not depend on scan order; every job they add to the queue stands in the tier of its stored priority, and every tier keeps what it held, in order |
| Sweep.SweepChargesOnce | reaper/internal/reaper/sweep.go:12-99 | exactly the processing jobs named by a stale worker or past their lease lose one attempt, once |
| Sweep.SweepSettles | reaper/internal/reaper/sweep.go:12-139 | after a sweep no busy worker is stale, no running attempt is expired, every stale queued job is queued in Redis |
| Sweep.SweepIsFixpoint | reaper/internal/reaper/sweep.go:12-139 | on settled tables and queue a sweep changes nothing |
| Sweep.SecondSweepIsNoOp | reaper/internal/reaper/sweep.go:12-139 | a second sweep at the same instant changes nothing |
| Sweep.RetireAllIsRun | reaper/internal/reaper/sweep.go:49-97 | a pass is a run of recovery transactions |
| Sweep.SweepKeepsInv | reaper/internal/reaper/sweep.go:12-23 | a sweep keeps the database invariant |
| Leadership.LockKey.AcquireLeadership | reaper/internal/reaper/reaper.go:99-101 | succeeds exactly when the key is absent or expired |
| Leadership.LockKey.RefreshLeadership | reaper/internal/reaper/reaper.go:130-138 | extends the key only for its owner |
| Leadership.LockKey.ReleaseLeadership | reaper/internal/reaper/reaper.go:140-150 | deletes the key only for its owner |
| Leadership.OverlapNeedsLapse | reaper/internal/reaper/reaper.go:80-138 | in every run a sweeping reaper owns the lock iff it extended it less than one TTL ago; two sweep at once only if one has lapsed |
| Leadership.LeadershipExclusion | reaper/internal/reaper/reaper.go:80-128 | with refresh calls less than one TTL apart at most one reaper sweeps at any instant |
| Leadership.LateRefreshOverlaps | reaper/internal/reaper/reaper.go:99-101 | without that, two reapers can be sweeping |
| Leadership.OthersLeaveLockAlone | reaper/internal/reaper/reaper.go:130-150 | no acquire, refresh, release or crash of another reaper changes a lock that is held |
| Leadership.LateTickIsHarmless | reaper/internal/reaper/reaper.go:90-92 | after its release a reaper's late ticks never extend or delete any lock until it acquires again |
| Outputs.InOrderMeaning | worker/internal/worker/processor.go:312-325 | the sequential mode succeeds iff every output succeeds, and lists type, path, size and content type in order |
| Outputs.InOrderFailure | worker/internal/worker/processor.go:314-321 | a failed sequential run reports the first output that failed, and how |
| Outputs.RunSequential | worker/internal/worker/processor.go:311-325 | stops at the first failure, otherwise returns all outputs in order |
| Outputs.RunParallel | worker/internal/worker/processor.go:327-352 | for every completion order and every choice of cancelled siblings: success iff sequential success, same array; otherwise the first genuine failure to finish |
| Outputs.TaskNames | worker/internal/worker/processor.go:277-309 | type name, file name and content type of every configured task agree |
| Outputs.PathsDiffer | worker/internal/worker/processor.go:330-331 | no two tasks write the same file |
| System.GenerationIsFullSet | worker/internal/worker/processor.go:276-309 | the files a successful generation, sequential or parallel, leaves behind are one of every configured type in order; this is how workers of the system come to a full set |
| Outputs.CompleteOutputSet | cmd/benchmark/main.go:202-221 | accepts exactly the permutations of the four types |
| Outputs.ReaderSeesCompleteSet | api/internal/server/handlers.go:133-154 | what the outputs endpoint returns for a completed job, in any row order, passes the checker |
| ObjectKeys.KeyInjective | worker/internal/worker/processor.go:372-372 | equal keys, even under different prefixes, belong to the same job, attempt and type |
| System.SystemRunsTransactions | worker/internal/worker/worker.go:76-112 | every run of the whole system is a run of transactions, so every table of it is reachable |
| System.FaultsSpareTables | worker/internal/worker/worker.go:96-111 | no fault of the model touches tables, objects or clock |
| Stranding.NoStrandedJob | worker/internal/worker/worker.go:155-169 | a queued job whose entry no fault dropped (a crash, an aborted sweep, a failed enqueue, a poll or claim that errors after the pop, a flushed Redis) is in Redis, or held by someone about to enqueue or claim it, in every state of every run |
| Stranding.LostEntryStrands | api/internal/server/handlers.go:422-425 | the faults have to be excluded: a run of a submission and a failed enqueue after which the queued job is with nobody |
| Stranding.DroppedEntryStrands | worker/internal/worker/worker.go:155-169 | in every state each of those faults can strike where an entry is, and a queued job whose only entry it strikes is with nobody |
| Announcements.AnnouncementsConserved | reaper/internal/reaper/sweep.go:180-193 | in every state of every run the times a job became queued are the announcements made to the queue, plus those lost to faults, plus those still owed by an API request, worker or reaper |
| Stranding.ReconciliationRepairs | reaper/internal/reaper/sweep.go:101-139 | a job queued and stale when a reaper scans, however its entry was lost, is accounted for again when that reaper ends its sweep, with everybody else running in between |
| Stranding.HowJobsGetQueued | reaper/internal/reaper/sweep.go:180-193 | a job becomes queued only by creation, failure or recovery with retries left |
| Progress.EveryJobCanEnd | reaper/internal/reaper/sweep.go:12-139 | every run, whatever faults it contains, can be continued without a further fault, by one sweep of a new reaper and the work of a new worker, so that a given job ends: dead if it is dead or being processed with no retry left, completed otherwise |
| Progress.CanStaySafe | worker/internal/worker/processor.go:170-208 | a worker on the current attempt of its job can always renew and beat, and is then not what a scan looks for until TTL and grace, or the threshold, have gone by |
| Progress.CanNote | worker/internal/worker/processor.go:210-232 | a worker can always note its phase, while its attempt runs, and a duration, even after that |
| Publishing.RowsNameObjects | worker/internal/worker/processor.go:366-400 | in every state every output row gives base, prefix, job, attempt and type as URL of an object that is in the store and has its size |
| Publishing.UrlDeterminesRow | worker/internal/worker/processor.go:395-400 | in every state two output rows with one URL are one row |
| Publishing.PublishedForever | worker/internal/worker/processor.go:107-123 | from an effective completion step on, each row gives the spelled-out URL of the completing attempt's object, which still holds exactly what that attempt uploaded |
| Publishing.CompletedJobIsPublished | worker/internal/worker/processor.go:366-443 | in every state every completed job has one completing worker step with a full set of files; the row of each type gives the spelled-out URL of that attempt's object, which holds exactly the bytes of its file |
| Leases.LeaseFollowsTouch | worker/internal/worker/processor.go:152-155 | in every run a lease ends one TTL after the last claim or renewal |
| Leases.LeaseScanExact | reaper/internal/reaper/sweep.go:69-74 | the scan selects an attempt iff it runs and TTL plus grace have passed since then |
| Leases.PendingWasExpired | reaper/internal/reaper/sweep.go:80-97 | every attempt a lease pass goes on to recover was expired when that reaper scanned it |
| Leases.LeasePassRetires | reaper/internal/reaper/sweep.go:93-98 | when a reaper leaves its lease pass, none of the attempts it scanned is running, even with everybody else running in between |
| DeathPass.DeathPassRetires | reaper/internal/reaper/sweep.go:25-66 | when a reaper leaves its death pass, with everybody else running in between, it has marked each scanned worker dead and none of the attempts that the worker's job had at the scan is running |
| DeathPass.BuriedWasSilent | reaper/internal/reaper/sweep.go:25-47 | every row a death pass goes on to bury was scanned by that reaper when its worker was last reported at work, on that job, and had been silent beyond the threshold |
| DeathPass.LivelyWorkerIsSafe | worker/internal/worker/worker.go:125-153 | a worker that gives signs of life in time is never buried |
| Scans.WorkerRowTells | worker/internal/worker/worker.go:114-153 | in every run the row of a worker shows what it was last reported to be doing, and the time of its last sign of life |
| Scans.DeathScanExact | reaper/internal/reaper/sweep.go:26-30 | the scan selects a worker iff it was last reported at work and its last sign of life is older than the threshold |
| Scans.IdleWorkerIsSafe | worker/internal/worker/processor.go:50-54 | after a worker has gone idle no scan selects it until it reports busy again |
| Scans.RestingWorkerIsSafe | worker/internal/worker/processor.go:50-54 | a worker between two jobs is never selected, unless an earlier idle update of it failed |
| Progress.UnreportedRestIsScanned | worker/internal/worker/processor.go:51-55 | that exception is needed: from any state in which a finished worker still shows busy, a failed idle update and some silence make a scan select a worker between jobs |
| Scans.QueueScanExact | reaper/internal/reaper/sweep.go:102-107 | the scan selects a job iff it is queued and no step has written its row for the threshold |
| Scans.PhaseTells | worker/internal/worker/processor.go:81-118 | in every run the phase of an attempt that has not succeeded is the last one its worker entered |
| Scans.DurationTells | worker/internal/worker/processor.go:88-116 | in every run the durations of an attempt are the last ones its worker noted |
| Scans.EndTells | reaper/internal/reaper/sweep.go:166-170 | in every run an attempt that is over was ended by one step, and its row tells by which kind, why and when |
| Leases.TimelyAttemptIsSafe | worker/internal/worker/processor.go:170-195 | an attempt renewed within its TTL is never recovered by a lease pass |
| Guarantee.AtMostOnceVisibleCompletion | worker/internal/worker/processor.go:402-443 | of two completion steps of one job in one system run at most one takes effect |
| Guarantee.StaleWorkerIsInvisible | worker/internal/worker/processor.go:56-62 | once its attempt is stale, no later step of a worker's attempt changes the queue or the tables, durations and its own worker row aside; its report goes nowhere and enqueues nothing; no object that an output row names changes |
| Guarantee.ClientSeesOneCompleteSet | api/internal/server/handlers.go:133-154 | a client told "completed" reads, at any later time, the complete output set of the completing attempt |
| Ordering.QueueAlwaysOrdered | worker/internal/worker/worker.go:155-159 | in every system state the queue keys hold some list of entries in arrival order, each under the priority stored in the row of its job, and the next pop is the earliest of the highest |
| Ordering.PopsHighestPriority | pkg/queue/queue.go:27-41 | in every system state the job popped has the highest stored priority of all members, and every member waits in the tier of its stored priority |
| UploadReader.MultiReader.Read | api/internal/server/handlers.go:583-586 | hands out header and part as one stream, in order, without loss or repetition |
| UploadReader.SizeLimitedReader.Read | api/internal/server/handlers.go:616-634 | never passes the limit, reports too-large only with a byte beyond it, and makes progress |
| UploadReader.Drain | api/internal/server/handlers.go:610-634 | for any chunking and buffer sizes: end of file with all bytes, or too-large after exactly the limit |
| UploadReader.SizeDecides | api/internal/server/handlers.go:588-598 | on a reliable stream only the size decides between success and refusal |
| UploadReader.SniffHeader | api/internal/server/handlers.go:563-568 | reads ahead at most 512 bytes and loses none |
| UploadReader.ObjectStore.PutObject | api/internal/server/handlers.go:588-591 | stores exactly the drained bytes, or fails and may leave a partial object; touches no other object |
| UploadReader.StoreUpload | api/internal/server/handlers.go:562-607 | an upload is stored iff its header is acceptable and its size fits, with exactly the uploaded bytes; a refused type leaves the store alone; any later error removes the object if the store answers; no other object changes |

## Left out

- PostgreSQL, Redis and object-store internals: each transaction, Lua script and object upload is one atomic step; rollbacks leave the tables unchanged.
- Lost replies: a commit or a SETNX that succeeds while its client sees an error is modelled only through `FailAfterComplete` and the fault steps of `System`.
- FFmpeg, the file system and content sniffing: one outcome per output stands for FFmpeg and the file check, and sniffing is an arbitrary function of the header; work directories are taken not to be shared between workers.
- Sharing of one output prefix and CDN base by all workers is taken as given in `System`, although `KeyInjective` does not need it.
- The uncalled helpers `requeueJob` and `markDead` of the worker and `markDead` of the reaper, which bypass the current-attempt fence.
- Phase and duration notes inside `ProcessJob`: they are steps of `System`, and cosmetic by `StepShape`.
- `fetchJob` in `poll` is folded into the claim, which treats a missing job the same way.
- Columns that no decision depends on: input file, creation and start times, failure detail, processing mode.
- HTTP routing, multipart parsing, priority parsing, removal of an upload whose job is then rejected, statistics, metrics, logging and configuration loading: plumbing with easy properties only.
- `percentile` and `summarize` of the benchmark: floating-point reporting.
- Wall-clock liveness: `EveryJobCanEnd` says that every job can always be brought to its end, not that a fair scheduler will do so by a deadline.
- Rows migrated as processing without a current attempt: runs start from empty tables.
