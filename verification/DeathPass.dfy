/**
 The worker-death pass of a reaper with everybody else running: what it has done by the time it
 is over, and how it comes to retire the live attempt of a healthy worker.
 */
module DeathPass {
  import opened Common
  import opened Database
  import opened Invariant
  import opened PriorityQueue
  import opened System
  import opened Leases
  import opened Scans
  import Stranding
  import Sweep

  // ---------- what the pass has done when it is over ----------

  /** The scanned rows whose worker is still to be marked dead. */
  function Unburied(pc: ReaperPc): seq<Sweep.DeadWorker> {
    match pc
    case Burying(rows) => rows
    case Recovering(_, _, rest) => rest
    case Telling(_, _, next) => Unburied(next)
    case _ => []
  }

  /** The scanned rows whose job is still to be recovered. */
  function Unrecovered(pc: ReaperPc): seq<Sweep.DeadWorker> {
    match pc
    case Burying(rows) => rows
    case Recovering(w, j, rest) => [Sweep.DeadWorker(w, Some(j))] + rest
    case Telling(_, _, next) => Unrecovered(next)
    case _ => []
  }

  /** Recovering a job without naming an attempt leaves none of its attempts running. */
  lemma RecoveryRetiresAny(db: Db, j: Uuid, a: Uuid, now: int)
    requires a in db.attempts && db.attempts[a].job == j && AttemptOk(db, a)
    ensures NotRunning(RecoverTx(db, j, None, WorkerDeath, now), a)
  {
  }

  lemma UnrecoveredKept(s: Sys, step: Step, c: Config, r: Uuid, row: Sweep.DeadWorker)
    requires Enabled(s, step, c) && r in s.reapers && row in Unrecovered(s.reapers[r]) && row.currentJob.Some?
    requires step != AbortSweep(r)
    ensures r in NextReapers(s, step, c)
    ensures || row in Unrecovered(NextReapers(s, step, c)[r])
            || (step == RecoverDeath(r) && s.reapers[r].job == row.currentJob.value)
  {
  }

  ghost predicate RetiredOrUnrecovered(s: Sys, r: Uuid, row: Sweep.DeadWorker, a: Uuid) {
    && a in s.db.attempts && Some(s.db.attempts[a].job) == row.currentJob
    && (NotRunning(s.db, a) || (r in s.reapers && row in Unrecovered(s.reapers[r])))
  }

  lemma UnrecoveredStep(s: Sys, step: Step, c: Config, r: Uuid, row: Sweep.DeadWorker, a: Uuid)
    requires Enabled(s, step, c) && step != AbortSweep(r)
    requires r in s.reapers && row in Unrecovered(s.reapers[r])
    requires a in s.db.attempts && Some(s.db.attempts[a].job) == row.currentJob && AttemptOk(s.db, a)
    ensures r in NextReapers(s, step, c)
    ensures row in Unrecovered(NextReapers(s, step, c)[r]) || NotRunning(NextDb(s, step, c), a)
  {
    UnrecoveredKept(s, step, c, r, row);
    if step == RecoverDeath(r) && s.reapers[r].job == row.currentJob.value {
      RecoveryRetiresAny(s.db, s.reapers[r].job, a, s.now);
    }
  }

  lemma DeathStep(trace: seq<Sys>, steps: seq<Step>, c: Config, k: nat, r: Uuid, row: Sweep.DeadWorker, a: Uuid)
    requires IsRun(trace, steps, c) && k < |steps| && steps[k] != AbortSweep(r)
    requires RetiredOrUnrecovered(trace[k], r, row, a)
    ensures RetiredOrUnrecovered(trace[k + 1], r, row, a)
  {
    SystemRunsTransactions(trace, steps, c, k);
    NextAttempts(trace[k], steps[k], c, a);
    if !NotRunning(trace[k].db, a) {
      assert AttemptOk(trace[k].db, a);
      UnrecoveredStep(trace[k], steps[k], c, r, row, a);
    }
  }

  lemma DeathScanStarts(trace: seq<Sys>, steps: seq<Step>, c: Config, n: nat, row: Sweep.DeadWorker, a: Uuid)
    requires IsRun(trace, steps, c) && n < |steps| && steps[n].ScanWorkers? && row in steps[n].dead
    requires a in trace[n].db.attempts && Some(trace[n].db.attempts[a].job) == row.currentJob
    ensures RetiredOrUnrecovered(trace[n + 1], steps[n].r, row, a)
  {
    ScanSetsOut(trace, steps, c, n);
  }

  lemma {:induction false} RetiredByDeathPass(trace: seq<Sys>, steps: seq<Step>, c: Config, n: nat, m: nat, r: Uuid,
                                              row: Sweep.DeadWorker, a: Uuid)
    requires IsRun(trace, steps, c) && n < m <= |steps|
    requires steps[n].ScanWorkers? && steps[n].r == r && row in steps[n].dead
    requires a in trace[n].db.attempts && Some(trace[n].db.attempts[a].job) == row.currentJob
    requires forall i :: n < i < m ==> steps[i] != AbortSweep(r)
    ensures RetiredOrUnrecovered(trace[m], r, row, a)
    decreases m
  {
    if m == n + 1 {
      DeathScanStarts(trace, steps, c, n, row, a);
    } else {
      var k := m - 1;
      RetiredByDeathPass(trace, steps, c, n, k, r, row, a);
      assert n < k < m;
      DeathStep(trace, steps, c, k, r, row, a);
    }
  }

  lemma UnrecoveredStems(s: Sys, step: Step, c: Config, r: Uuid, row: Sweep.DeadWorker)
    requires Enabled(s, step, c) && r in NextReapers(s, step, c) && row in Unrecovered(NextReapers(s, step, c)[r])
    ensures || (r in s.reapers && row in Unrecovered(s.reapers[r]))
            || (step.ScanWorkers? && step.r == r && row in step.dead)
  {
  }

  /**
   Every row that a death pass goes on to bury and recover was selected by a scan of that very
   reaper, at a time when its worker was last reported at work, on that job, and had been silent
   for longer than the threshold.
   */
  lemma {:induction false} BuriedWasSilent(trace: seq<Sys>, steps: seq<Step>, c: Config, n: nat, r: Uuid,
                                           row: Sweep.DeadWorker)
    returns (k: nat)
    requires IsRun(trace, steps, c) && n <= |steps|
    requires r in trace[n].reapers && row in Unrecovered(trace[n].reapers[r])
    ensures k < n && steps[k].ScanWorkers? && steps[k].r == r
    ensures row.currentJob.Some? && DutyOf(trace, steps, c, k, row.id) == On(row.currentJob.value)
    ensures LastSign(trace, steps, c, k, row.id).Some?
    ensures trace[k].now > LastSign(trace, steps, c, k, row.id).value + c.sweep.deadWorkerThreshold
  {
    k := n - 1;
    UnrecoveredStems(trace[k], steps[k], c, r, row);
    if r in trace[k].reapers && row in Unrecovered(trace[k].reapers[r]) {
      k := BuriedWasSilent(trace, steps, c, k, r, row);
    } else {
      ScannedIsStale(trace[k], steps[k], c, row);
      DeathScanExact(trace, steps, c, k, row.id);
      WorkerRowTells(trace, steps, c, k, row.id);
    }
  }

  /** Whenever `w` is reported at work, it has given a sign of life within the threshold. */
  ghost predicate SignsInTime(trace: seq<Sys>, steps: seq<Step>, c: Config, n: nat, w: Uuid)
    requires IsRun(trace, steps, c) && n <= |steps|
  {
    forall i :: 0 <= i < n && DutyOf(trace, steps, c, i, w).On? ==>
      && LastSign(trace, steps, c, i, w).Some?
      && trace[i].now <= LastSign(trace, steps, c, i, w).value + c.sweep.deadWorkerThreshold
  }

  /** A worker that gives signs of life in time is never buried, nor its job recovered in its name. */
  lemma LivelyWorkerIsSafe(trace: seq<Sys>, steps: seq<Step>, c: Config, n: nat, r: Uuid, w: Uuid)
    requires IsRun(trace, steps, c) && n <= |steps| && SignsInTime(trace, steps, c, n, w) && r in trace[n].reapers
    ensures forall row :: row in Unrecovered(trace[n].reapers[r]) ==> row.id != w
  {
    forall row | row in Unrecovered(trace[n].reapers[r]) ensures row.id != w {
      if row.id == w {
        var k := BuriedWasSilent(trace, steps, c, n, r, row);
      }
    }
  }

  /** The step marks the worker of `row` dead. */
  ghost predicate Buries(s: Sys, step: Step, r: Uuid, row: Sweep.DeadWorker) {
    step == BuryWorker(r) && r in s.reapers && s.reapers[r].Burying? && s.reapers[r].workers != []
    && s.reapers[r].workers[0] == row
  }

  lemma UnburiedKept(s: Sys, step: Step, c: Config, r: Uuid, row: Sweep.DeadWorker)
    requires Enabled(s, step, c) && r in s.reapers && row in Unburied(s.reapers[r]) && step != AbortSweep(r)
    ensures r in NextReapers(s, step, c)
    ensures row in Unburied(NextReapers(s, step, c)[r]) || Buries(s, step, r, row)
  {
  }

  lemma UnburiedNext(trace: seq<Sys>, steps: seq<Step>, c: Config, k: nat, r: Uuid, row: Sweep.DeadWorker)
    requires IsRun(trace, steps, c) && k < |steps| && steps[k] != AbortSweep(r)
    requires r in trace[k].reapers && row in Unburied(trace[k].reapers[r])
    ensures r in trace[k + 1].reapers
    ensures row in Unburied(trace[k + 1].reapers[r]) || Buries(trace[k], steps[k], r, row)
  {
    UnburiedKept(trace[k], steps[k], c, r, row);
  }

  lemma ScanSetsOut(trace: seq<Sys>, steps: seq<Step>, c: Config, n: nat)
    requires IsRun(trace, steps, c) && n < |steps| && steps[n].ScanWorkers?
    ensures steps[n].r in trace[n + 1].reapers && trace[n + 1].reapers[steps[n].r] == Burying(steps[n].dead)
    ensures trace[n + 1].db == trace[n].db
  {
  }

  /** A scanned row is not yet dealt with, or there was a step that marked its worker dead. */
  lemma {:induction false} BuriedSoFar(trace: seq<Sys>, steps: seq<Step>, c: Config, n: nat, m: nat, r: Uuid,
                                       row: Sweep.DeadWorker)
    returns (k: nat)
    requires IsRun(trace, steps, c) && n < m <= |steps|
    requires steps[n].ScanWorkers? && steps[n].r == r && row in steps[n].dead
    requires forall i :: n < i < m ==> steps[i] != AbortSweep(r)
    ensures || (n < k < m && Buries(trace[k], steps[k], r, row))
            || (r in trace[m].reapers && row in Unburied(trace[m].reapers[r]))
    decreases m
  {
    k := m - 1;
    if k == n {
      ScanSetsOut(trace, steps, c, n);
    } else {
      var earlier := BuriedSoFar(trace, steps, c, n, k, r, row);
      if n < earlier < k && Buries(trace[earlier], steps[earlier], r, row) {
        k := earlier;
      } else {
        UnburiedNext(trace, steps, c, k, r, row);
      }
    }
  }

  lemma WorkerRowStays(s: Sys, step: Step, c: Config, w: Uuid)
    requires Enabled(s, step, c) && w in s.db.workers
    ensures w in NextDb(s, step, c).workers
  {
    if EventOf(s, step, c).Some? {
      Stranding.WorkerRowsStay(s.db, EventOf(s, step, c).value, w);
    }
  }

  lemma {:induction false} WorkerRowsLast(trace: seq<Sys>, steps: seq<Step>, c: Config, n: nat, m: nat, w: Uuid)
    requires IsRun(trace, steps, c) && n <= m <= |steps| && w in trace[n].db.workers
    ensures w in trace[m].db.workers
    decreases m
  {
    if n < m {
      WorkerRowsLast(trace, steps, c, n, m - 1, w);
      WorkerRowStays(trace[m - 1], steps[m - 1], c, w);
    }
  }

  lemma BurialMarks(s: Sys, step: Step, c: Config, r: Uuid, row: Sweep.DeadWorker)
    requires Enabled(s, step, c) && Buries(s, step, r, row) && row.id in s.db.workers
    ensures row.id in NextDb(s, step, c).workers && NextDb(s, step, c).workers[row.id].status == Lost
  {
  }

  lemma ScanLists(s: Sys, step: Step, c: Config, w: Uuid)
    requires Enabled(s, step, c) && step.ScanWorkers? && Sweep.IsStaleWorker(s.db, w, c.sweep, s.now)
    ensures Sweep.DeadWorker(w, s.db.workers[w].currentJob) in step.dead
  {
    assert Sweep.DeadWorker(w, s.db.workers[w].currentJob) in Elements(step.dead);
  }

  lemma DeathPassBuries(trace: seq<Sys>, steps: seq<Step>, c: Config, n: nat, m: nat, r: Uuid, row: Sweep.DeadWorker)
    returns (k: nat)
    requires IsRun(trace, steps, c) && n < m < |steps|
    requires steps[n].ScanWorkers? && steps[n].r == r && row in steps[n].dead && row.id in trace[n].db.workers
    requires r in trace[m].reapers && trace[m].reapers[r] == Burying([])
    requires forall i :: n < i < m ==> steps[i] != AbortSweep(r)
    ensures n < k < m && steps[k] == BuryWorker(r)
    ensures row.id in trace[k + 1].db.workers && trace[k + 1].db.workers[row.id].status == Lost
  {
    k := BuriedSoFar(trace, steps, c, n, m, r, row);
    WorkerRowsLast(trace, steps, c, n, k, row.id);
    BurialMarks(trace[k], steps[k], c, r, row);
  }

  lemma PassIsOver(s: Sys, step: Step, c: Config)
    requires Enabled(s, step, c) && step.ScanLeases?
    ensures step.r in s.reapers && s.reapers[step.r] == Burying([])
  {
  }

  /**
   By the time a reaper that has scanned the workers goes on to the leases, with every other actor
   running freely in between, it has marked each worker it scanned dead, and none of the attempts
   that the worker's job had at the scan is running any more.
   */
  lemma DeathPassRetires(trace: seq<Sys>, steps: seq<Step>, c: Config, n: nat, m: nat, r: Uuid, w: Uuid)
    returns (k: nat)
    requires IsRun(trace, steps, c) && n < m < |steps|
    requires steps[n].ScanWorkers? && steps[n].r == r && Sweep.IsStaleWorker(trace[n].db, w, c.sweep, trace[n].now)
    requires steps[m].ScanLeases? && steps[m].r == r
    requires forall i :: n < i < m ==> steps[i] != AbortSweep(r)
    ensures n < k < m && steps[k] == BuryWorker(r)
    ensures w in trace[k + 1].db.workers && trace[k + 1].db.workers[w].status == Lost
    ensures forall a :: a in trace[n].db.attempts
                        && trace[n].db.workers[w].currentJob == Some(trace[n].db.attempts[a].job) ==>
                          NotRunning(trace[m].db, a)
  {
    var row := Sweep.DeadWorker(w, trace[n].db.workers[w].currentJob);
    ScanLists(trace[n], steps[n], c, w);
    PassIsOver(trace[m], steps[m], c);
    k := DeathPassBuries(trace, steps, c, n, m, r, row);
    forall a | a in trace[n].db.attempts && row.currentJob == Some(trace[n].db.attempts[a].job)
      ensures NotRunning(trace[m].db, a)
    {
      RetiredByDeathPass(trace, steps, c, n, m, r, row, a);
    }
  }
}
