/**
 The PostgreSQL tables and the transactions that API, workers and reapers run on them.

 Each transaction is one atomic function from tables to tables. All of them are total: a
 conditional UPDATE whose WHERE clause matches nothing, and a statement that a constraint
 rejects (and so rolls the transaction back), leave the tables as they were.
 */
module Database {
  import opened Common

  datatype JobStatus = Queued | Processing | Completed | Dead
  datatype AttemptStatus = Running | Succeeded | Failed | Expired
  datatype WorkerStatus = Idle | Busy | Lost
  datatype OutputType = Video360 | Video720 | Video1080 | Thumbnail
  datatype Phase = Claiming | Downloading | Transcoding | Uploading | Completing | Finished
  datatype FailureCategory = ProcessingFailure | WorkerDeath | LeaseExpired
  datatype DurationField = DownloadMs | ProcessingMs | UploadMs

  datatype Job = Job(
    status: JobStatus,
    retryCount: nat,
    maxRetries: nat,
    priority: int,
    queueEnteredAt: int,
    updatedAt: int,
    current: Option<Uuid>,
    completed: Option<Uuid>,
    completedAt: Option<int>)

  datatype Attempt = Attempt(
    job: Uuid,
    number: nat,
    worker: Uuid,
    status: AttemptStatus,
    queueEnteredAt: int,
    lastHeartbeat: int,
    leaseExpiresAt: int,
    finishedAt: Option<int>,
    phase: Phase,
    category: Option<FailureCategory>,
    durations: map<DurationField, nat>)

  datatype OutputRow = OutputRow(attempt: Uuid, url: string, size: nat)

  /** What a worker hands to the completion transaction for one output. */
  datatype Output = Output(kind: OutputType, url: string, size: nat)

  datatype WorkerRow = WorkerRow(status: WorkerStatus, currentJob: Option<Uuid>, lastHeartbeat: int)

  /** `outputs` is keyed by the UNIQUE (job_id, type) constraint of `job_outputs`. */
  datatype Db = Db(
    jobs: map<Uuid, Job>,
    attempts: map<Uuid, Attempt>,
    outputs: map<(Uuid, OutputType), OutputRow>,
    workers: map<Uuid, WorkerRow>)

  const EMPTY: Db := Db(map[], map[], map[], map[])

  // ---------- creation ----------

  /** INSERT of a queued job; the primary key and CHECK (max_retries >= 0) may reject it. */
  predicate CreateTakes(db: Db, j: Uuid, maxRetries: int) {
    j !in db.jobs && 0 <= maxRetries
  }

  function CreateTx(db: Db, j: Uuid, maxRetries: int, priority: int, now: int): Db {
    if CreateTakes(db, j, maxRetries)
    then db.(jobs := db.jobs[j := Job(Queued, 0, maxRetries, priority, now, now, None, None, None)])
    else db
  }

  // ---------- claim ----------

  /** Some attempt of job `j` already carries number `n`. */
  predicate HasNumber(db: Db, j: Uuid, n: nat) {
    exists a :: a in db.attempts && db.attempts[a].job == j && db.attempts[a].number == n
  }

  /** The job is queued and no constraint rejects the INSERT of attempt `a`. */
  predicate ClaimTakes(db: Db, j: Uuid, a: Uuid, w: Uuid) {
    && j in db.jobs && db.jobs[j].status == Queued
    && a !in db.attempts
    && w in db.workers
    && !HasNumber(db, j, db.jobs[j].retryCount + 1)
  }

  /** The second statement of the claim, whose affected-row count nobody looks at. */
  function PointAtAttempt(jobs: map<Uuid, Job>, j: Uuid, a: Uuid, now: int): map<Uuid, Job> {
    if j in jobs && jobs[j].status == Queued && jobs[j].current == None
    then jobs[j := jobs[j].(status := Processing, current := Some(a), updatedAt := now)]
    else jobs
  }

  function ClaimTx(db: Db, j: Uuid, a: Uuid, w: Uuid, ttl: nat, now: int): Db {
    if ClaimTakes(db, j, a, w) then
      var row := Attempt(j, db.jobs[j].retryCount + 1, w, Running, db.jobs[j].queueEnteredAt,
                         now, now + ttl, None, Claiming, None, map[]);
      db.(attempts := db.attempts[a := row], jobs := PointAtAttempt(db.jobs, j, a, now))
    else db
  }

  // ---------- the running attempt ----------

  /** `a` is the attempt that job `j` currently authorizes. */
  predicate IsCurrent(db: Db, j: Uuid, a: Uuid) {
    j in db.jobs && db.jobs[j].status == Processing && db.jobs[j].current == Some(a)
  }

  predicate RenewTakes(db: Db, a: Uuid) {
    a in db.attempts && db.attempts[a].status == Running && IsCurrent(db, db.attempts[a].job, a)
  }

  function RenewTx(db: Db, a: Uuid, ttl: nat, now: int): Db {
    if RenewTakes(db, a)
    then db.(attempts := db.attempts[a := db.attempts[a].(lastHeartbeat := now, leaseExpiresAt := now + ttl)])
    else db
  }

  function PhaseTx(db: Db, a: Uuid, phase: Phase): Db {
    if a in db.attempts && db.attempts[a].status == Running
    then db.(attempts := db.attempts[a := db.attempts[a].(phase := phase)])
    else db
  }

  /** The duration columns are written without looking at the attempt's status. */
  function DurationTx(db: Db, a: Uuid, field: DurationField, ms: nat): Db {
    if a in db.attempts
    then db.(attempts := db.attempts[a := db.attempts[a].(durations := db.attempts[a].durations[field := ms])])
    else db
  }

  // ---------- completion ----------

  /** The fenced UPDATE of `jobs` affects a row, and the foreign key to the attempt holds. */
  predicate CompleteTakes(db: Db, j: Uuid, a: Uuid) {
    IsCurrent(db, j, a) && a in db.attempts
  }

  /** INSERT ... ON CONFLICT (job_id, type) DO UPDATE, for each output in order. */
  function Upsert(rows: map<(Uuid, OutputType), OutputRow>, j: Uuid, a: Uuid, outs: seq<Output>)
    : map<(Uuid, OutputType), OutputRow>
  {
    if outs == [] then rows
    else
      var last := outs[|outs| - 1];
      Upsert(rows, j, a, outs[..|outs| - 1])[(j, last.kind) := OutputRow(a, last.url, last.size)]
  }

  /** UPDATE job_attempts ... WHERE id = a AND status = 'running'. */
  function EndAttempt(attempts: map<Uuid, Attempt>, a: Uuid, status: AttemptStatus,
                      category: Option<FailureCategory>, now: int): map<Uuid, Attempt>
  {
    if a in attempts && attempts[a].status == Running
    then attempts[a := attempts[a].(status := status, finishedAt := Some(now),
                                    category := if category.Some? then category else attempts[a].category,
                                    phase := if status == Succeeded then Finished else attempts[a].phase)]
    else attempts
  }

  function CompleteTx(db: Db, j: Uuid, a: Uuid, outs: seq<Output>, now: int): Db {
    if CompleteTakes(db, j, a) then
      Db(db.jobs[j := db.jobs[j].(status := Completed, completed := Some(a), completedAt := Some(now),
                                  current := None, updatedAt := now)],
         EndAttempt(db.attempts, a, Succeeded, None, now),
         Upsert(db.outputs, j, a, outs),
         db.workers)
    else db
  }

  // ---------- failure and recovery ----------

  /** The retry decision shared by `handleFailure` and the reaper's `requeueJob`. */
  predicate RetriesLeft(job: Job) {
    job.retryCount < job.maxRetries
  }

  function Retire(job: Job, now: int): Job {
    if RetriesLeft(job)
    then job.(retryCount := job.retryCount + 1, status := Queued, current := None,
              queueEnteredAt := now, updatedAt := now)
    else job.(status := Dead, current := None, updatedAt := now)
  }

  function FailTx(db: Db, j: Uuid, a: Uuid, now: int): Db {
    if IsCurrent(db, j, a) then
      db.(attempts := EndAttempt(db.attempts, a, Failed, Some(ProcessingFailure), now),
          jobs := db.jobs[j := Retire(db.jobs[j], now)])
    else db
  }

  /** The reaper's guard; `expected == None` is the empty attempt id of the worker-death pass. */
  predicate RecoverTakes(db: Db, j: Uuid, expected: Option<Uuid>) {
    && j in db.jobs
    && db.jobs[j].status == Processing
    && db.jobs[j].current.Some?
    && (expected.Some? ==> db.jobs[j].current == expected)
  }

  function RecoverTx(db: Db, j: Uuid, expected: Option<Uuid>, reason: FailureCategory, now: int): Db {
    if RecoverTakes(db, j, expected) then
      db.(attempts := EndAttempt(db.attempts, db.jobs[j].current.value, Expired, Some(reason), now),
          jobs := db.jobs[j := Retire(db.jobs[j], now)])
    else db
  }

  // ---------- worker rows ----------

  function RegisterTx(db: Db, w: Uuid, now: int): Db {
    db.(workers := db.workers[w := WorkerRow(Idle, None, now)])
  }

  function BusyTx(db: Db, w: Uuid, j: Uuid, now: int): Db {
    if w in db.workers && j in db.jobs
    then db.(workers := db.workers[w := WorkerRow(Busy, Some(j), now)])
    else db
  }

  function IdleTx(db: Db, w: Uuid, now: int): Db {
    if w in db.workers
    then db.(workers := db.workers[w := WorkerRow(Idle, None, now)])
    else db
  }

  function HeartbeatTx(db: Db, w: Uuid, now: int): Db {
    if w in db.workers
    then db.(workers := db.workers[w := db.workers[w].(lastHeartbeat := now)])
    else db
  }

  function MarkLostTx(db: Db, w: Uuid): Db {
    if w in db.workers
    then db.(workers := db.workers[w := db.workers[w].(status := Lost, currentJob := None)])
    else db
  }

  // ---------- one committed transaction, by anybody, with any arguments ----------

  datatype Event =
    | Create(job: Uuid, maxRetries: int, priority: int, now: int)
    | Claim(job: Uuid, attempt: Uuid, worker: Uuid, ttl: nat, now: int)
    | Renew(attempt: Uuid, ttl: nat, now: int)
    | SetPhase(attempt: Uuid, phase: Phase)
    | RecordDuration(attempt: Uuid, field: DurationField, ms: nat)
    | Complete(job: Uuid, attempt: Uuid, outs: seq<Output>, now: int)
    | Fail(job: Uuid, attempt: Uuid, now: int)
    | Recover(job: Uuid, expected: Option<Uuid>, reason: FailureCategory, now: int)
    | Register(worker: Uuid, now: int)
    | SetBusy(worker: Uuid, job: Uuid, now: int)
    | SetIdle(worker: Uuid, now: int)
    | Heartbeat(worker: Uuid, now: int)
    | MarkLost(worker: Uuid)

  function Apply(db: Db, e: Event): Db {
    match e
    case Create(j, maxRetries, priority, now) => CreateTx(db, j, maxRetries, priority, now)
    case Claim(j, a, w, ttl, now) => ClaimTx(db, j, a, w, ttl, now)
    case Renew(a, ttl, now) => RenewTx(db, a, ttl, now)
    case SetPhase(a, phase) => PhaseTx(db, a, phase)
    case RecordDuration(a, field, ms) => DurationTx(db, a, field, ms)
    case Complete(j, a, outs, now) => CompleteTx(db, j, a, outs, now)
    case Fail(j, a, now) => FailTx(db, j, a, now)
    case Recover(j, expected, reason, now) => RecoverTx(db, j, expected, reason, now)
    case Register(w, now) => RegisterTx(db, w, now)
    case SetBusy(w, j, now) => BusyTx(db, w, j, now)
    case SetIdle(w, now) => IdleTx(db, w, now)
    case Heartbeat(w, now) => HeartbeatTx(db, w, now)
    case MarkLost(w) => MarkLostTx(db, w)
  }

  /** The tables after the transactions `es` committed in that order. */
  function Run(db: Db, es: seq<Event>): Db {
    if es == [] then db else Apply(Run(db, es[..|es| - 1]), es[|es| - 1])
  }

  lemma {:induction false} RunAppend(db: Db, es: seq<Event>, more: seq<Event>)
    ensures Run(db, es + more) == Run(Run(db, es), more)
  {
    if more == [] {
      assert es + more == es;
    } else {
      var n := |more| - 1;
      assert (es + more)[..|es| + n] == es + more[..n];
      RunAppend(db, es, more[..n]);
    }
  }

  lemma RunSnoc(db: Db, es: seq<Event>, e: Event)
    ensures Run(db, es + [e]) == Apply(Run(db, es), e)
  {
    assert (es + [e])[..|es|] == es;
  }

  lemma RunOne(db: Db, e: Event)
    ensures Run(db, [e]) == Apply(db, e)
  {
    assert [e][..0] == [];
  }
}
