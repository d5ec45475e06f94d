/**
 No job is stranded: as long as no fault drops a job's queue entry, whoever puts the job back
 into the queued state also sees to it that Redis knows, through every interleaving of stale
 entries, duplicate enqueues and reconciliation.
 */
module Stranding {
  import opened Common
  import opened Database
  import opened Invariant
  import opened Lifecycle
  import opened PriorityQueue
  import opened System
  import Sweep

  predicate IsQueued(db: Db, j: Uuid) {
    j in db.jobs && db.jobs[j].status == Queued
  }

  /** A worker between pop and claim, or between committing a retry and enqueueing it. */
  predicate WorkerHolds(pc: WorkerPc, j: Uuid) {
    (pc.Popped? || pc.Announcing?) && pc.job == j
  }

  /** A reaper between committing a recovery and enqueueing it. */
  predicate ReaperHolds(pc: ReaperPc, j: Uuid) {
    pc.Telling? && pc.job == j
  }

  ghost predicate Covered(s: Sys, j: Uuid) {
    || j in s.queue.members
    || j in s.api
    || (exists w :: w in s.workers && WorkerHolds(s.workers[w], j))
    || (exists r :: r in s.reapers && ReaperHolds(s.reapers[r], j))
  }

  /** The faults that can lose the queue entry of `j`: nothing else counts as one. */
  predicate Drops(s: Sys, step: Step, j: Uuid) {
    match step
    case CrashWorker(w) => w in s.workers && WorkerHolds(s.workers[w], j)
    case LosePop(w) => w in s.workers && s.workers[w] == Popped(j)
    case LoseRetry(w) => w in s.workers && s.workers[w].Announcing? && s.workers[w].job == j
    case AbortSweep(r) => r in s.reapers && ReaperHolds(s.reapers[r], j)
    case LoseSubmission(k) => k == j && j in s.api
    case FlushRedis => j in s.queue.members
    case ClaimJob(w, a) => w in s.workers && s.workers[w] == Popped(j) && a in s.db.attempts
    case _ => false
  }

  // ---------- what every step keeps ----------

  ghost predicate ApiOk(s: Sys) {
    forall j :: j in s.api ==> ValidPriority(s.api[j])
  }

  ghost predicate WorkersOk(s: Sys) {
    forall w :: w in s.workers ==>
      w in s.db.workers && (s.workers[w].Announcing? ==> ValidPriority(s.workers[w].priority))
  }

  predicate ReaperOk(pc: ReaperPc) {
    pc.Telling? ==> ValidPriority(pc.priority) && !pc.next.Telling?
  }

  ghost predicate ReapersOk(s: Sys) {
    forall r :: r in s.reapers ==> ReaperOk(s.reapers[r])
  }

  ghost predicate SysOk(s: Sys) {
    Inv(s.db) && Sweep.AllValid(s.db) && ApiOk(s) && WorkersOk(s) && ReapersOk(s)
  }

  lemma PrioritiesStep(db: Db, e: Event)
    requires Inv(db) && Sweep.AllValid(db)
    requires e.Create? ==> ValidPriority(e.priority)
    ensures Sweep.AllValid(Apply(db, e))
  {
    StepShape(db, e);
    ShapeMovesLegally(db, Apply(db, e), ShapeOf(db, e));
    forall j | j in Apply(db, e).jobs ensures ValidPriority(Apply(db, e).jobs[j].priority) {
    }
  }

  lemma WorkerRowsStay(db: Db, e: Event, w: Uuid)
    requires w in db.workers
    ensures w in Apply(db, e).workers
  {
  }

  lemma WorkersStep(s: Sys, step: Step, c: Config)
    requires SysOk(s) && Enabled(s, step, c)
    ensures WorkersOk(Next(s, step, c))
  {
    var s' := Next(s, step, c);
    forall w | w in s'.workers
      ensures w in s'.db.workers && (s'.workers[w].Announcing? ==> ValidPriority(s'.workers[w].priority))
    {
      if w in s.workers && EventOf(s, step, c).Some? {
        WorkerRowsStay(s.db, EventOf(s, step, c).value, w);
      }
    }
  }

  lemma ReapersStep(s: Sys, step: Step, c: Config)
    requires SysOk(s) && Enabled(s, step, c)
    ensures ReapersOk(Next(s, step, c))
  {
    forall r | r in NextReapers(s, step, c) ensures ReaperOk(NextReapers(s, step, c)[r]) {
      assert r in s.reapers ==> ReaperOk(s.reapers[r]);
    }
  }

  lemma StepKeepsSysOk(s: Sys, step: Step, c: Config)
    requires SysOk(s) && Enabled(s, step, c)
    ensures SysOk(Next(s, step, c))
  {
    WorkersStep(s, step, c);
    ReapersStep(s, step, c);
    match EventOf(s, step, c)
    case None =>
    case Some(e) =>
      StepKeepsInv(s.db, e);
      PrioritiesStep(s.db, e);
  }

  // ---------- coverage ----------

  /** A job becomes queued only by being created, failed or recovered with retries left. */
  lemma HowJobsGetQueued(db: Db, e: Event, j: Uuid)
    requires Inv(db) && !IsQueued(db, j) && IsQueued(Apply(db, e), j)
    ensures match e
            case Create(k, maxRetries, _, _) => k == j && CreateTakes(db, j, maxRetries)
            case Fail(k, a, _) => k == j && IsCurrent(db, j, a) && RetriesLeft(db.jobs[j])
            case Recover(k, expected, _, _) => k == j && RecoverTakes(db, j, expected) && RetriesLeft(db.jobs[j])
            case _ => false
  {
    StepShape(db, e);
  }

  lemma SubmittedIsHeld(s: Sys, step: Step, c: Config, j: Uuid)
    requires Enabled(s, step, c) && step.Submit? && step.job == j && CreateTakes(s.db, j, step.maxRetries)
    ensures Covered(Next(s, step, c), j)
  {
    assert j in NextApi(s, step, c);
  }

  lemma FailedIsHeld(s: Sys, step: Step, c: Config, j: Uuid)
    requires Enabled(s, step, c) && step.FailJob? && s.workers[step.w].job == j
    requires IsCurrent(s.db, j, s.workers[step.w].attempt) && RetriesLeft(s.db.jobs[j])
    ensures Covered(Next(s, step, c), j)
  {
    assert WorkerHolds(NextWorkers(s, step, c)[step.w], j);
  }

  lemma RecoveredIsHeld(s: Sys, step: Step, c: Config, j: Uuid, expected: Option<Uuid>)
    requires Enabled(s, step, c) && (step.RecoverDeath? || step.RecoverLease?)
    requires EventOf(s, step, c).value.job == j && EventOf(s, step, c).value.expected == expected
    requires RecoverTakes(s.db, j, expected) && RetriesLeft(s.db.jobs[j])
    ensures Covered(Next(s, step, c), j)
  {
    assert ReaperHolds(NextReapers(s, step, c)[step.r], j);
  }

  /** Which step a transaction that can queue a job belongs to. */
  lemma QueueingStep(s: Sys, step: Step, c: Config)
    requires Enabled(s, step, c) && EventOf(s, step, c).Some?
    ensures var e := EventOf(s, step, c).value;
            match e
            case Create(j, maxRetries, _, _) => step.Submit? && step.job == j && step.maxRetries == maxRetries
            case Fail(j, a, _) => step.FailJob? && s.workers[step.w].job == j && s.workers[step.w].attempt == a
            case Recover(_, _, _, _) => step.RecoverDeath? || step.RecoverLease?
            case _ => true
  {
  }

  /** Whoever makes a job queued holds it. */
  lemma QueuedIsHeld(s: Sys, step: Step, c: Config, j: Uuid)
    requires Inv(s.db) && Enabled(s, step, c)
    requires !IsQueued(s.db, j) && IsQueued(NextDb(s, step, c), j)
    ensures Covered(Next(s, step, c), j)
  {
    var e := EventOf(s, step, c).value;
    HowJobsGetQueued(s.db, e, j);
    QueueingStep(s, step, c);
    match e
    case Create(_, _, _, _) => SubmittedIsHeld(s, step, c, j);
    case Fail(_, _, _) => FailedIsHeld(s, step, c, j);
    case Recover(_, expected, _, _) => RecoveredIsHeld(s, step, c, j, expected);
  }

  lemma MemberStaysCovered(s: Sys, step: Step, c: Config, j: Uuid)
    requires Enabled(s, step, c) && !Drops(s, step, j) && j in s.queue.members
    ensures Covered(Next(s, step, c), j)
  {
    var s' := Next(s, step, c);
    if step.PopJob? && PopResult(s.queue) == Some(j) {
      assert WorkerHolds(s'.workers[step.w], j);
    } else {
      assert j in s'.queue.members;
    }
  }

  lemma SubmissionStaysCovered(s: Sys, step: Step, c: Config, j: Uuid)
    requires SysOk(s) && Enabled(s, step, c) && !Drops(s, step, j) && j in s.api
    ensures Covered(Next(s, step, c), j)
  {
    var s' := Next(s, step, c);
    if step == TellSubmitted(j) {
      assert j in s'.queue.members;
    } else {
      assert j in s'.api;
    }
  }

  lemma WorkerKeepsCovered(s: Sys, step: Step, c: Config, j: Uuid, w: Uuid)
    requires SysOk(s) && Enabled(s, step, c) && !Drops(s, step, j)
    requires w in s.workers && WorkerHolds(s.workers[w], j)
    ensures Covered(Next(s, step, c), j) || !IsQueued(Next(s, step, c).db, j)
  {
    var s' := Next(s, step, c);
    if step.ClaimJob? && step.w == w {
      ClaimAlwaysTakesEffect(s.db, j, step.attempt, w, c.leaseTtl, s.now);
    } else if step == TellRetry(w) {
      assert j in s'.queue.members;
    } else {
      assert w in s'.workers && WorkerHolds(s'.workers[w], j);
    }
  }

  lemma ReaperKeepsCovered(s: Sys, step: Step, c: Config, j: Uuid, r: Uuid)
    requires SysOk(s) && Enabled(s, step, c) && !Drops(s, step, j)
    requires r in s.reapers && ReaperHolds(s.reapers[r], j)
    ensures Covered(Next(s, step, c), j)
  {
    var s' := Next(s, step, c);
    if step == TellRecovery(r) {
      assert j in s'.queue.members;
    } else {
      assert r in s'.reapers && ReaperHolds(s'.reapers[r], j);
    }
  }

  lemma StepKeepsCovered(s: Sys, step: Step, c: Config, j: Uuid)
    requires SysOk(s) && Enabled(s, step, c) && !Drops(s, step, j)
    requires IsQueued(s.db, j) ==> Covered(s, j)
    ensures IsQueued(Next(s, step, c).db, j) ==> Covered(Next(s, step, c), j)
  {
    if IsQueued(Next(s, step, c).db, j) {
      if !IsQueued(s.db, j) {
        QueuedIsHeld(s, step, c, j);
      } else if j in s.queue.members {
        MemberStaysCovered(s, step, c, j);
      } else if j in s.api {
        SubmissionStaysCovered(s, step, c, j);
      } else if exists w :: w in s.workers && WorkerHolds(s.workers[w], j) {
        var w :| w in s.workers && WorkerHolds(s.workers[w], j);
        WorkerKeepsCovered(s, step, c, j, w);
      } else {
        var r :| r in s.reapers && ReaperHolds(s.reapers[r], j);
        ReaperKeepsCovered(s, step, c, j, r);
      }
    }
  }

  lemma {:induction false} AlwaysSysOk(trace: seq<Sys>, steps: seq<Step>, c: Config, n: nat)
    requires IsRun(trace, steps, c) && n <= |steps|
    ensures SysOk(trace[n])
  {
    if n > 0 {
      AlwaysSysOk(trace, steps, c, n - 1);
      StepKeepsSysOk(trace[n - 1], steps[n - 1], c);
    }
  }

  /**
   In every run, at every moment: a queued job whose queue entry no fault has dropped is in the
   Redis membership set, or with an API request, worker or reaper about to enqueue it, or with a
   worker about to claim it. In particular no job is ever stranded in a run without faults.
   */
  lemma {:induction false} NoStrandedJob(trace: seq<Sys>, steps: seq<Step>, c: Config, n: nat, j: Uuid)
    requires IsRun(trace, steps, c) && n <= |steps|
    requires forall i :: 0 <= i < n ==> !Drops(trace[i], steps[i], j)
    ensures IsQueued(trace[n].db, j) ==> Covered(trace[n], j)
  {
    if n > 0 {
      NoStrandedJob(trace, steps, c, n - 1, j);
      AlwaysSysOk(trace, steps, c, n - 1);
      StepKeepsCovered(trace[n - 1], steps[n - 1], c, j);
    }
  }

  // ---------- why the faults have to be excluded ----------

  /** Where a job's entry can be. */
  datatype Place = InRedis | AtApi | AtWorker(w: Uuid) | AtReaper(r: Uuid)

  predicate IsAt(s: Sys, j: Uuid, place: Place) {
    match place
    case InRedis => j in s.queue.members
    case AtApi => j in s.api
    case AtWorker(w) => w in s.workers && WorkerHolds(s.workers[w], j)
    case AtReaper(r) => r in s.reapers && ReaperHolds(s.reapers[r], j)
  }

  /** Where a fault strikes. */
  function Struck(step: Step): Place {
    match step
    case CrashWorker(w) => AtWorker(w)
    case LosePop(w) => AtWorker(w)
    case LoseRetry(w) => AtWorker(w)
    case ClaimJob(w, _) => AtWorker(w)
    case AbortSweep(r) => AtReaper(r)
    case LoseSubmission(_) => AtApi
    case _ => InRedis
  }

  lemma NowhereElse(s: Sys, j: Uuid, place: Place)
    requires forall other :: IsAt(s, j, other) ==> other == place
    ensures Covered(s, j) ==> IsAt(s, j, place)
  {
    if j in s.queue.members {
      assert IsAt(s, j, InRedis);
    }
    if j in s.api {
      assert IsAt(s, j, AtApi);
    }
    if w :| w in s.workers && WorkerHolds(s.workers[w], j) {
      assert IsAt(s, j, AtWorker(w));
    }
    if r :| r in s.reapers && ReaperHolds(s.reapers[r], j) {
      assert IsAt(s, j, AtReaper(r));
    }
  }

  /** After the fault the entry is gone from where it struck, and has not turned up elsewhere. */
  lemma StruckPlaceIsEmpty(s: Sys, step: Step, c: Config, j: Uuid, place: Place)
    requires Enabled(s, step, c) && Drops(s, step, j) && IsQueued(s.db, j)
    ensures IsAt(Next(s, step, c), j, place) ==> IsAt(s, j, place) && place != Struck(step)
    ensures NextDb(s, step, c) == s.db
  {
  }

  /**
   Each of those faults can strike wherever it says, and where it strikes the only entry of a
   queued job, the job is then queued and with nobody.
   */
  lemma DroppedEntryStrands(s: Sys, step: Step, c: Config, j: Uuid)
    requires Drops(s, step, j) && IsQueued(s.db, j)
    requires forall place :: IsAt(s, j, place) ==> place == Struck(step)
    ensures Enabled(s, step, c)
    ensures IsQueued(Next(s, step, c).db, j) && !Covered(Next(s, step, c), j)
  {
    forall place ensures !IsAt(Next(s, step, c), j, place) {
      StruckPlaceIsEmpty(s, step, c, j, place);
    }
    NowhereElse(Next(s, step, c), j, InRedis);
  }

  /** The faults have to be excluded: after a lost enqueue a queued job is with nobody, in a run of two steps. */
  lemma LostEntryStrands(c: Config) returns (trace: seq<Sys>, steps: seq<Step>)
    ensures IsRun(trace, steps, c) && steps == [Submit(10, 3, 0), LoseSubmission(10)]
    ensures IsQueued(trace[2].db, 10) && !Covered(trace[2], 10)
  {
    steps := [Submit(10, 3, 0), LoseSubmission(10)];
    var s := Next(INIT, steps[0], c);
    assert s.api == map[10 := 0] && IsQueued(s.db, 10);
    var s' := Next(s, steps[1], c);
    assert s'.api == map[] && s'.db == s.db;
    trace := [INIT, s, s'];
  }

  // ---------- repair ----------

  /** The scanned jobs that a reaper's reconciliation pass has not dealt with yet. */
  function Unchecked(pc: ReaperPc): seq<Uuid> {
    match pc
    case Checking(jobs) => jobs
    case Restoring(j, later) => [j] + later
    case _ => []
  }

  predicate Reconciling(s: Sys, r: Uuid) {
    r in s.reapers && (s.reapers[r].Checking? || s.reapers[r].Restoring?)
  }

  /** Job `j` is safe, or reaper `r` is still going to look after it. */
  ghost predicate SafeOrUnchecked(s: Sys, r: Uuid, j: Uuid) {
    IsQueued(s.db, j) ==> Covered(s, j) || (r in s.reapers && j in Unchecked(s.reapers[r]))
  }

  lemma ReconcilingPc(s: Sys, step: Step, c: Config, r: Uuid, j: Uuid)
    requires Enabled(s, step, c) && Reconciling(s, r) && j in Unchecked(s.reapers[r])
    requires step != AbortSweep(r)
    ensures r in NextReapers(s, step, c)
    ensures || j in Unchecked(NextReapers(s, step, c)[r])
            || (step == CheckEntry(r) && j in s.queue.members)
            || (step == RestoreEntry(r) && j == s.reapers[r].job)
  {
  }

  /** Whatever the others do meanwhile, the pass loses none of the jobs it scanned. */
  lemma RepairStep(s: Sys, step: Step, c: Config, r: Uuid, j: Uuid)
    requires SysOk(s) && Enabled(s, step, c) && !Drops(s, step, j)
    requires Reconciling(s, r) && step != AbortSweep(r) && SafeOrUnchecked(s, r, j)
    ensures SafeOrUnchecked(Next(s, step, c), r, j)
  {
    if IsQueued(s.db, j) && !Covered(s, j) {
      ReconcilingPc(s, step, c, r, j);
      if step == RestoreEntry(r) && j == s.reapers[r].job {
        assert j in NextQueue(s, step, c).members;
      }
    } else {
      StepKeepsCovered(s, step, c, j);
    }
  }

  lemma StaysReconciling(s: Sys, step: Step, c: Config, r: Uuid)
    requires Enabled(s, step, c) && Reconciling(s, r)
    requires step != AbortSweep(r) && step != EndSweep(r)
    ensures Reconciling(Next(s, step, c), r)
  {
  }

  lemma QueueScanStarts(s: Sys, step: Step, c: Config, j: Uuid)
    requires Enabled(s, step, c) && step.ScanQueue? && Sweep.IsStaleQueued(s.db, j, c.sweep, s.now)
    ensures Reconciling(Next(s, step, c), step.r) && SafeOrUnchecked(Next(s, step, c), step.r, j)
  {
    assert j in Elements(step.stale);
  }

  lemma RepairGoesOn(trace: seq<Sys>, steps: seq<Step>, c: Config, k: nat, r: Uuid, j: Uuid)
    requires IsRun(trace, steps, c) && k < |steps| && !Drops(trace[k], steps[k], j)
    requires steps[k] != AbortSweep(r) && steps[k] != EndSweep(r)
    requires Reconciling(trace[k], r) && SafeOrUnchecked(trace[k], r, j)
    ensures Reconciling(trace[k + 1], r) && SafeOrUnchecked(trace[k + 1], r, j)
  {
    AlwaysSysOk(trace, steps, c, k);
    RepairStep(trace[k], steps[k], c, r, j);
    StaysReconciling(trace[k], steps[k], c, r);
  }

  lemma {:induction false} RepairSoFar(trace: seq<Sys>, steps: seq<Step>, c: Config, n: nat, m: nat, r: Uuid, j: Uuid)
    requires IsRun(trace, steps, c) && n < m <= |steps|
    requires steps[n].ScanQueue? && steps[n].r == r && Sweep.IsStaleQueued(trace[n].db, j, c.sweep, trace[n].now)
    requires forall i :: n < i < m ==> steps[i] != AbortSweep(r) && steps[i] != EndSweep(r)
    requires forall i :: n < i < m ==> !Drops(trace[i], steps[i], j)
    ensures Reconciling(trace[m], r) && SafeOrUnchecked(trace[m], r, j)
    decreases m
  {
    if m == n + 1 {
      QueueScanStarts(trace[n], steps[n], c, j);
    } else {
      RepairSoFar(trace, steps, c, n, m - 1, r, j);
      RepairGoesOn(trace, steps, c, m - 1, r, j);
    }
  }

  /**
   Reconciliation repairs: a job that was queued and stale when a reaper scanned, however its
   entry had been lost, is accounted for again by the time that reaper ends its sweep, with every
   other actor running freely in between and only faults on that very entry excluded.
   */
  lemma ReconciliationRepairs(trace: seq<Sys>, steps: seq<Step>, c: Config, n: nat, m: nat, r: Uuid, j: Uuid)
    requires IsRun(trace, steps, c) && n < m < |steps|
    requires steps[n].ScanQueue? && steps[n].r == r && Sweep.IsStaleQueued(trace[n].db, j, c.sweep, trace[n].now)
    requires steps[m] == EndSweep(r)
    requires forall i :: n < i < m ==> steps[i] != AbortSweep(r) && steps[i] != EndSweep(r)
    requires forall i :: n < i < m ==> !Drops(trace[i], steps[i], j)
    ensures IsQueued(trace[m + 1].db, j) ==> Covered(trace[m + 1], j)
  {
    RepairSoFar(trace, steps, c, n, m, r, j);
    AlwaysSysOk(trace, steps, c, m);
    StepKeepsCovered(trace[m], steps[m], c, j);
  }
}
