/**
 The running system: API requests, any number of workers and any number of reapers, each with a
 program counter, sharing PostgreSQL, Redis, the object store and the clock. Every step is one
 transaction, one Lua script, one object upload or one local action; everything between steps
 interleaves freely. Sweeps need no leadership here: any number of them may overlap.
 */
module System {
  import opened Common
  import opened Database
  import opened Invariant
  import opened PriorityQueue
  import opened ObjectKeys
  import Outputs
  import Sweep

  datatype Config = Config(leaseTtl: nat, sweep: Sweep.Config, tempDir: string, outputPrefix: string, cdnBase: string)

  /** A finished output file on a worker's disk. */
  datatype File = File(kind: OutputType, content: string)

  datatype WorkerPc =
    | Polling
    | Popped(job: Uuid)
    | Working(job: Uuid, attempt: Uuid, files: seq<File>, uploaded: set<nat>)
    | Announcing(job: Uuid, priority: int)
    | Finishing

  datatype ReaperPc =
    | Resting
    | Burying(workers: seq<Sweep.DeadWorker>)
    | Recovering(worker: Uuid, job: Uuid, rest: seq<Sweep.DeadWorker>)
    | Expiring(attempts: seq<Sweep.ExpiredAttempt>)
    | Checking(jobs: seq<Uuid>)
    | Restoring(job: Uuid, later: seq<Uuid>)
    | Telling(job: Uuid, priority: int, next: ReaperPc)

  /** `api` holds the committed submissions whose enqueue is still to come. */
  datatype Sys = Sys(
    now: int,
    db: Db,
    queue: Redis,
    store: map<string, string>,
    api: map<Uuid, int>,
    workers: map<Uuid, WorkerPc>,
    reapers: map<Uuid, ReaperPc>)

  const INIT: Sys := Sys(0, EMPTY, EMPTY_QUEUE, map[], map[], map[], map[])

  datatype Step =
    | TimePasses(seconds: nat)
    // API
    | Submit(job: Uuid, maxRetries: int, priority: int)
    | TellSubmitted(job: Uuid)
    // worker
    | StartWorker(w: Uuid)
    | Beat(w: Uuid)
    | PopJob(w: Uuid)
    | ClaimJob(w: Uuid, attempt: Uuid)
    | MarkBusy(w: Uuid)
    | RenewLease(w: Uuid)
    | EnterPhase(w: Uuid, phase: Phase)
    | NoteDuration(w: Uuid, field: DurationField, ms: nat)
    | Transcode(w: Uuid, outcomes: seq<Outputs.Outcome>, contents: seq<string>)
    | Upload(w: Uuid, i: nat)
    | CompleteJob(w: Uuid)
    | FailJob(w: Uuid)
    | TellRetry(w: Uuid)
    | GoIdle(w: Uuid)
    // reaper
    | StartReaper(r: Uuid)
    | ScanWorkers(r: Uuid, dead: seq<Sweep.DeadWorker>)
    | BuryWorker(r: Uuid)
    | RecoverDeath(r: Uuid)
    | ScanLeases(r: Uuid, expired: seq<Sweep.ExpiredAttempt>)
    | RecoverLease(r: Uuid)
    | ScanQueue(r: Uuid, stale: seq<Uuid>)
    | CheckEntry(r: Uuid)
    | RestoreEntry(r: Uuid)
    | TellRecovery(r: Uuid)
    | EndSweep(r: Uuid)
    // faults
    | CrashWorker(w: Uuid)
    | AbortSweep(r: Uuid)
    | LoseSubmission(job: Uuid)     // the enqueue after a submission errors
    | LosePop(w: Uuid)              // the poll or the claim errors after the pop
    | LoseRetry(w: Uuid)            // the enqueue after a failure errors
    | GiveUp(w: Uuid)               // the failure transaction errors
    | SkipIdle(w: Uuid)             // the worker row is not set idle
    | FlushRedis

  predicate IsFault(step: Step) {
    || step.CrashWorker? || step.AbortSweep? || step.LoseSubmission? || step.LosePop?
    || step.LoseRetry? || step.GiveUp? || step.SkipIdle? || step.FlushRedis?
  }

  // ---------- when a step can happen ----------

  predicate IsWorking(s: Sys, w: Uuid) {
    w in s.workers && s.workers[w].Working?
  }

  /** One file per configured task, in task order: what `runFFmpegJobs` returns. */
  predicate FullSet(files: seq<File>) {
    |files| == |Outputs.TASKS| && forall i :: 0 <= i < |files| ==> files[i].kind == Outputs.TASKS[i].kind
  }

  /** What generating the outputs of job `j` comes to, in either mode. */
  function Generation(c: Config, j: Uuid, outcomes: seq<Outputs.Outcome>): Outputs.Result
    requires |outcomes| == |Outputs.TASKS|
  {
    Outputs.InOrder(Outputs.TASKS, outcomes, c.tempDir + "/" + Text(j))
  }

  /** The generated files, once FFmpeg has filled them with `contents`. */
  function FilesOf(outputs: seq<Outputs.Produced>, contents: seq<string>): seq<File>
    requires |contents| == |outputs|
  {
    seq(|outputs|, i requires 0 <= i < |outputs| => File(outputs[i].kind, contents[i]))
  }

  /** FFmpeg succeeds for every task and leaves `contents` behind, of the sizes it reports. */
  predicate Generates(c: Config, j: Uuid, outcomes: seq<Outputs.Outcome>, contents: seq<string>) {
    && |outcomes| == |Outputs.TASKS| && Generation(c, j, outcomes).Outputs?
    && var outputs := Generation(c, j, outcomes).outputs;
    |contents| == |outputs| && forall i :: 0 <= i < |outputs| ==> |contents[i]| == outputs[i].size
  }

  /** A successful generation, in either mode, leaves a full set of files behind. */
  lemma GenerationIsFullSet(c: Config, j: Uuid, outcomes: seq<Outputs.Outcome>, contents: seq<string>)
    requires Generates(c, j, outcomes, contents)
    ensures FullSet(FilesOf(Generation(c, j, outcomes).outputs, contents))
  {
    Outputs.InOrderMeaning(Outputs.TASKS, outcomes, c.tempDir + "/" + Text(j));
  }

  ghost predicate Enabled(s: Sys, step: Step, c: Config) {
    match step
    case TimePasses(_) => true
    case Submit(j, _, p) => j !in s.api && ValidPriority(p)
    case TellSubmitted(j) => j in s.api
    case StartWorker(w) => w !in s.workers
    case Beat(w) => w in s.workers
    case PopJob(w) => w in s.workers && s.workers[w] == Polling
    case ClaimJob(w, _) => w in s.workers && s.workers[w].Popped?
    case MarkBusy(w) => IsWorking(s, w)
    case RenewLease(w) => IsWorking(s, w)
    case EnterPhase(w, _) => IsWorking(s, w)
    case NoteDuration(w, _, _) => IsWorking(s, w)
    case Transcode(w, outcomes, contents) =>
      IsWorking(s, w) && s.workers[w].files == [] && Generates(c, s.workers[w].job, outcomes, contents)
    case Upload(w, i) => IsWorking(s, w) && i < |s.workers[w].files|
    case CompleteJob(w) => IsWorking(s, w) && s.workers[w].files != [] && AllUploaded(s.workers[w])
    case FailJob(w) => IsWorking(s, w)
    case TellRetry(w) => w in s.workers && s.workers[w].Announcing?
    case GoIdle(w) => w in s.workers && s.workers[w] == Finishing
    case StartReaper(r) => r !in s.reapers
    case ScanWorkers(r, rows) =>
      && r in s.reapers && s.reapers[r] == Resting
      && Enumerates(rows, set w | w in s.db.workers && Sweep.IsStaleWorker(s.db, w, c.sweep, s.now)
                              :: Sweep.DeadWorker(w, s.db.workers[w].currentJob))
    case BuryWorker(r) => r in s.reapers && s.reapers[r].Burying? && s.reapers[r].workers != []
    case RecoverDeath(r) => r in s.reapers && s.reapers[r].Recovering?
    case ScanLeases(r, rows) =>
      && r in s.reapers && s.reapers[r] == Burying([])
      && Enumerates(rows, set a | a in s.db.attempts && Sweep.IsExpired(s.db, a, c.sweep, s.now)
                              :: Sweep.ExpiredAttempt(s.db.attempts[a].job, a))
    case RecoverLease(r) => r in s.reapers && s.reapers[r].Expiring? && s.reapers[r].attempts != []
    case ScanQueue(r, rows) =>
      && r in s.reapers && s.reapers[r] == Expiring([])
      && Enumerates(rows, set j | j in s.db.jobs && Sweep.IsStaleQueued(s.db, j, c.sweep, s.now))
    case CheckEntry(r) => r in s.reapers && s.reapers[r].Checking? && s.reapers[r].jobs != []
    case RestoreEntry(r) => r in s.reapers && s.reapers[r].Restoring?
    case TellRecovery(r) => r in s.reapers && s.reapers[r].Telling?
    case EndSweep(r) => r in s.reapers && s.reapers[r] == Checking([])
    case CrashWorker(w) => w in s.workers
    case AbortSweep(r) => r in s.reapers
    case LoseSubmission(j) => j in s.api
    case LosePop(w) => w in s.workers && s.workers[w].Popped?
    case LoseRetry(w) => w in s.workers && s.workers[w].Announcing?
    case GiveUp(w) => IsWorking(s, w)
    case SkipIdle(w) => w in s.workers && s.workers[w] == Finishing
    case FlushRedis => true
  }

  predicate AllUploaded(pc: WorkerPc)
    requires pc.Working?
  {
    forall i :: 0 <= i < |pc.files| ==> i in pc.uploaded
  }

  // ---------- what it does to PostgreSQL ----------

  function FileKey(c: Config, pc: WorkerPc, i: nat): string
    requires pc.Working? && i < |pc.files|
  {
    Key(c.outputPrefix, pc.job, pc.attempt, pc.files[i].kind)
  }

  /** The rows handed to the completion transaction. */
  function RowsOf(c: Config, pc: WorkerPc): seq<Output>
    requires pc.Working?
  {
    seq(|pc.files|, i requires 0 <= i < |pc.files| =>
      Output(pc.files[i].kind, CdnUrl(c.cdnBase, FileKey(c, pc, i)), |pc.files[i].content|))
  }

  /** The transaction of a step, if it has one. */
  ghost function EventOf(s: Sys, step: Step, c: Config): Option<Event>
    requires Enabled(s, step, c)
  {
    match step
    case Submit(j, maxRetries, p) => Some(Create(j, maxRetries, p, s.now))
    case StartWorker(w) => Some(Register(w, s.now))
    case Beat(w) => Some(Heartbeat(w, s.now))
    case ClaimJob(w, a) => Some(Claim(s.workers[w].job, a, w, c.leaseTtl, s.now))
    case MarkBusy(w) => Some(SetBusy(w, s.workers[w].job, s.now))
    case RenewLease(w) => Some(Renew(s.workers[w].attempt, c.leaseTtl, s.now))
    case EnterPhase(w, phase) => Some(SetPhase(s.workers[w].attempt, phase))
    case NoteDuration(w, field, ms) => Some(RecordDuration(s.workers[w].attempt, field, ms))
    case CompleteJob(w) => Some(Complete(s.workers[w].job, s.workers[w].attempt, RowsOf(c, s.workers[w]), s.now))
    case FailJob(w) => Some(Fail(s.workers[w].job, s.workers[w].attempt, s.now))
    case GoIdle(w) => Some(SetIdle(w, s.now))
    case BuryWorker(r) => Some(MarkLost(s.reapers[r].workers[0].id))
    case RecoverDeath(r) => Some(Recover(s.reapers[r].job, None, WorkerDeath, s.now))
    case RecoverLease(r) =>
      var row := s.reapers[r].attempts[0];
      Some(Recover(row.job, Some(row.attempt), LeaseExpired, s.now))
    case _ => None
  }

  ghost function NextDb(s: Sys, step: Step, c: Config): Db
    requires Enabled(s, step, c)
  {
    match EventOf(s, step, c)
    case None => s.db
    case Some(e) => Apply(s.db, e)
  }

  // ---------- what it does to Redis, the store and the program counters ----------

  ghost function NextQueue(s: Sys, step: Step, c: Config): Redis
    requires Enabled(s, step, c)
  {
    match step
    case TellSubmitted(j) => Enqueue(s.queue, j, s.api[j])
    case PopJob(_) => PopScript(s.queue)
    case TellRetry(w) => Enqueue(s.queue, s.workers[w].job, s.workers[w].priority)
    case TellRecovery(r) => Enqueue(s.queue, s.reapers[r].job, s.reapers[r].priority)
    case RestoreEntry(r) =>
      var j := s.reapers[r].job;
      if j in s.db.jobs then Enqueue(s.queue, j, s.db.jobs[j].priority) else s.queue
    case FlushRedis => EMPTY_QUEUE
    case _ => s.queue
  }

  ghost function NextStore(s: Sys, step: Step, c: Config): map<string, string>
    requires Enabled(s, step, c)
  {
    match step
    case Upload(w, i) => s.store[FileKey(c, s.workers[w], i) := s.workers[w].files[i].content]
    case _ => s.store
  }

  ghost function NextApi(s: Sys, step: Step, c: Config): map<Uuid, int>
    requires Enabled(s, step, c)
  {
    match step
    case Submit(j, maxRetries, p) => if CreateTakes(s.db, j, maxRetries) then s.api[j := p] else s.api
    case TellSubmitted(j) => s.api - {j}
    case LoseSubmission(j) => s.api - {j}
    case _ => s.api
  }

  ghost function NextWorkers(s: Sys, step: Step, c: Config): map<Uuid, WorkerPc>
    requires Enabled(s, step, c)
  {
    match step
    case StartWorker(w) => s.workers[w := Polling]
    case PopJob(w) =>
      s.workers[w := if PopResult(s.queue).Some? then Popped(PopResult(s.queue).value) else Polling]
    case ClaimJob(w, a) =>
      var j := s.workers[w].job;
      s.workers[w := if ClaimTakes(s.db, j, a, w) then Working(j, a, [], {}) else Polling]
    case Transcode(w, outcomes, contents) =>
      s.workers[w := s.workers[w].(files := FilesOf(Generation(c, s.workers[w].job, outcomes).outputs, contents))]
    case Upload(w, i) => s.workers[w := s.workers[w].(uploaded := s.workers[w].uploaded + {i})]
    case CompleteJob(w) => s.workers[w := Finishing]
    case FailJob(w) =>
      var pc := s.workers[w];
      s.workers[w := if IsCurrent(s.db, pc.job, pc.attempt) && RetriesLeft(s.db.jobs[pc.job])
                     then Announcing(pc.job, s.db.jobs[pc.job].priority) else Finishing]
    case TellRetry(w) => s.workers[w := Finishing]
    case LosePop(w) => s.workers[w := Polling]
    case LoseRetry(w) => s.workers[w := Finishing]
    case GiveUp(w) => s.workers[w := Finishing]
    case SkipIdle(w) => s.workers[w := Polling]
    case GoIdle(w) => s.workers[w := Polling]
    case CrashWorker(w) => s.workers - {w}
    case _ => s.workers
  }

  /** After a recovery: tell the queue if the job was put back, otherwise go straight on. */
  ghost function AfterRecovery(s: Sys, j: Uuid, expected: Option<Uuid>, next: ReaperPc): ReaperPc {
    if RecoverTakes(s.db, j, expected) && RetriesLeft(s.db.jobs[j])
    then Telling(j, s.db.jobs[j].priority, next)
    else next
  }

  ghost function NextReapers(s: Sys, step: Step, c: Config): map<Uuid, ReaperPc>
    requires Enabled(s, step, c)
  {
    match step
    case StartReaper(r) => s.reapers[r := Resting]
    case ScanWorkers(r, rows) => s.reapers[r := Burying(rows)]
    case BuryWorker(r) =>
      var row, rest := s.reapers[r].workers[0], s.reapers[r].workers[1..];
      s.reapers[r := if row.currentJob.Some? then Recovering(row.id, row.currentJob.value, rest) else Burying(rest)]
    case RecoverDeath(r) =>
      s.reapers[r := AfterRecovery(s, s.reapers[r].job, None, Burying(s.reapers[r].rest))]
    case ScanLeases(r, rows) => s.reapers[r := Expiring(rows)]
    case RecoverLease(r) =>
      var row := s.reapers[r].attempts[0];
      s.reapers[r := AfterRecovery(s, row.job, Some(row.attempt), Expiring(s.reapers[r].attempts[1..]))]
    case ScanQueue(r, rows) => s.reapers[r := Checking(rows)]
    case CheckEntry(r) =>
      var j, later := s.reapers[r].jobs[0], s.reapers[r].jobs[1..];
      s.reapers[r := if j in s.queue.members then Checking(later) else Restoring(j, later)]
    case RestoreEntry(r) => s.reapers[r := Checking(s.reapers[r].later)]
    case TellRecovery(r) => s.reapers[r := s.reapers[r].next]
    case EndSweep(r) => s.reapers[r := Resting]
    case AbortSweep(r) => s.reapers[r := Resting]
    case _ => s.reapers
  }

  ghost function Next(s: Sys, step: Step, c: Config): Sys
    requires Enabled(s, step, c)
  {
    Sys(if step.TimePasses? then s.now + step.seconds else s.now,
        NextDb(s, step, c),
        NextQueue(s, step, c),
        NextStore(s, step, c),
        NextApi(s, step, c),
        NextWorkers(s, step, c),
        NextReapers(s, step, c))
  }

  /** No fault touches the tables, the objects or the clock. */
  lemma FaultsSpareTables(s: Sys, step: Step, c: Config)
    requires IsFault(step) && Enabled(s, step, c)
    ensures Next(s, step, c).db == s.db && Next(s, step, c).store == s.store && Next(s, step, c).now == s.now
  {
  }

  /** A worker can crash at any moment, and give up a report or fail to report itself idle. */
  lemma WorkersCanFail(s: Sys, c: Config, w: Uuid)
    ensures w in s.workers ==> Enabled(s, CrashWorker(w), c) && Next(s, CrashWorker(w), c).workers == s.workers - {w}
    ensures IsWorking(s, w) ==> Enabled(s, GiveUp(w), c) && Next(s, GiveUp(w), c).workers == s.workers[w := Finishing]
    ensures w in s.workers && s.workers[w] == Finishing ==>
              Enabled(s, SkipIdle(w), c) && Next(s, SkipIdle(w), c).workers == s.workers[w := Polling]
  {
  }

  /** A sweep can break off at any moment. */
  lemma SweepsCanFail(s: Sys, c: Config, r: Uuid)
    requires r in s.reapers
    ensures Enabled(s, AbortSweep(r), c) && Next(s, AbortSweep(r), c).reapers == s.reapers[r := Resting]
  {
  }

  // ---------- runs ----------

  /** `trace` lists the states of a run of `steps` from the initial state. */
  ghost predicate IsRun(trace: seq<Sys>, steps: seq<Step>, c: Config) {
    && |trace| == |steps| + 1
    && trace[0] == INIT
    && (forall i :: 0 <= i < |steps| ==> Enabled(trace[i], steps[i], c) && trace[i + 1] == Next(trace[i], steps[i], c))
  }

  /** The transactions of the first `n` steps, in commit order. */
  ghost function Commits(trace: seq<Sys>, steps: seq<Step>, c: Config, n: nat): seq<Event>
    requires IsRun(trace, steps, c) && n <= |steps|
  {
    if n == 0 then []
    else
      Commits(trace, steps, c, n - 1)
      + match EventOf(trace[n - 1], steps[n - 1], c) case None => [] case Some(e) => [e]
  }

  /**
   Every run of the system is a run of transactions, so all that module `Lifecycle` proves of
   those holds of the tables of every system state.
   */
  lemma {:induction false} SystemRunsTransactions(trace: seq<Sys>, steps: seq<Step>, c: Config, n: nat)
    requires IsRun(trace, steps, c) && n <= |steps|
    ensures trace[n].db == Run(EMPTY, Commits(trace, steps, c, n))
    ensures Inv(trace[n].db)
  {
    AlwaysInv(Commits(trace, steps, c, n));
    if n > 0 {
      SystemRunsTransactions(trace, steps, c, n - 1);
      var before := Commits(trace, steps, c, n - 1);
      match EventOf(trace[n - 1], steps[n - 1], c)
      case None => assert before + [] == before;
      case Some(e) => assert (before + [e])[..|before|] == before;
    }
  }
}
