/**
 What the rows that the reaper scans say about the past of the running system: a worker row about
 the worker's last signs of life, a job row about its last change.
 */
module Scans {
  import opened Common
  import opened Database
  import opened Invariant
  import opened System
  import opened History
  import Publishing
  import Stranding
  import Sweep

  // ---------- worker rows ----------

  /** What a worker was last reported to be doing. */
  datatype Duty = Unknown | Off | On(job: Uuid) | Buried

  predicate IsSign(step: Step, w: Uuid) {
    step == StartWorker(w) || step == Beat(w) || step == MarkBusy(w) || step == GoIdle(w)
  }

  /** The time of the last sign of life of worker `w` during the first `n` steps. */
  ghost function LastSign(trace: seq<Sys>, steps: seq<Step>, c: Config, n: nat, w: Uuid): Option<int>
    requires IsRun(trace, steps, c) && n <= |steps|
  {
    if n == 0 then None
    else if IsSign(steps[n - 1], w) then Some(trace[n - 1].now)
    else LastSign(trace, steps, c, n - 1, w)
  }

  predicate BuriesWorker(s: Sys, step: Step, w: Uuid) {
    && step.BuryWorker? && step.r in s.reapers && s.reapers[step.r].Burying?
    && s.reapers[step.r].workers != [] && s.reapers[step.r].workers[0].id == w
  }

  /** What a step reports of worker `w`; a burial reports only of registered workers. */
  function DutyAfter(s: Sys, step: Step, w: Uuid, duty: Duty): Duty {
    if step == StartWorker(w) || step == GoIdle(w) then Off
    else if step == MarkBusy(w) && IsWorking(s, w) then On(s.workers[w].job)
    else if BuriesWorker(s, step, w) && duty != Unknown then Buried
    else duty
  }

  /** What worker `w` was last reported to be doing, by itself or by a reaper that buried it. */
  ghost function DutyOf(trace: seq<Sys>, steps: seq<Step>, c: Config, n: nat, w: Uuid): Duty
    requires IsRun(trace, steps, c) && n <= |steps|
  {
    if n == 0 then Unknown
    else DutyAfter(trace[n - 1], steps[n - 1], w, DutyOf(trace, steps, c, n - 1, w))
  }

  /** The row of `w`, if there is one, shows this duty and this sign of life. */
  predicate Shows(db: Db, w: Uuid, duty: Duty, sign: Option<int>) {
    if w !in db.workers then duty == Unknown && sign == None
    else
      && sign == Some(db.workers[w].lastHeartbeat)
      && var row := db.workers[w];
      match duty
      case Unknown => false
      case Off => row.status == Idle && row.currentJob == None
      case On(j) => row.status == Busy && row.currentJob == Some(j)
      case Buried => row.status == Lost && row.currentJob == None
  }

  /** The transactions that report of a worker, and what they report. */
  lemma ReportShows(db: Db, e: Event, w: Uuid, duty: Duty, sign: Option<int>)
    requires Shows(db, w, duty, sign)
    ensures e.Register? && e.worker == w ==> Shows(Apply(db, e), w, Off, Some(e.now))
    ensures e.SetIdle? && e.worker == w && w in db.workers ==> Shows(Apply(db, e), w, Off, Some(e.now))
    ensures e.SetBusy? && e.worker == w && w in db.workers && e.job in db.jobs ==>
              Shows(Apply(db, e), w, On(e.job), Some(e.now))
    ensures e.Heartbeat? && e.worker == w && w in db.workers ==> Shows(Apply(db, e), w, duty, Some(e.now))
    ensures e.MarkLost? && e.worker == w ==> Shows(Apply(db, e), w, if duty == Unknown then duty else Buried, sign)
  {
  }

  lemma OthersShowNothing(db: Db, e: Event, w: Uuid)
    requires e.Register? || e.SetIdle? || e.SetBusy? || e.Heartbeat? || e.MarkLost? ==> e.worker != w
    ensures w in Apply(db, e).workers <==> w in db.workers
    ensures w in db.workers ==> Apply(db, e).workers[w] == db.workers[w]
  {
  }

  /** Worker `w` registered before it started, and works on a job that exists. */
  predicate Ready(s: Sys, w: Uuid) {
    (w in s.workers ==> w in s.db.workers) && (IsWorking(s, w) ==> s.workers[w].job in s.db.jobs)
  }

  lemma SignShows(s: Sys, step: Step, c: Config, w: Uuid, duty: Duty, sign: Option<int>)
    requires Enabled(s, step, c) && Ready(s, w) && Shows(s.db, w, duty, sign) && IsSign(step, w)
    ensures Shows(NextDb(s, step, c), w, DutyAfter(s, step, w, duty), Some(s.now))
  {
    ReportShows(s.db, EventOf(s, step, c).value, w, duty, sign);
  }

  lemma BurialShows(s: Sys, step: Step, c: Config, w: Uuid, duty: Duty, sign: Option<int>)
    requires Enabled(s, step, c) && Shows(s.db, w, duty, sign) && BuriesWorker(s, step, w)
    ensures Shows(NextDb(s, step, c), w, DutyAfter(s, step, w, duty), sign)
  {
    ReportShows(s.db, EventOf(s, step, c).value, w, duty, sign);
  }

  lemma RestShows(s: Sys, step: Step, c: Config, w: Uuid, duty: Duty, sign: Option<int>)
    requires Enabled(s, step, c) && Shows(s.db, w, duty, sign) && !IsSign(step, w) && !BuriesWorker(s, step, w)
    ensures Shows(NextDb(s, step, c), w, DutyAfter(s, step, w, duty), sign)
  {
    if EventOf(s, step, c).Some? {
      OthersShowNothing(s.db, EventOf(s, step, c).value, w);
    }
  }

  lemma WorkerReady(trace: seq<Sys>, steps: seq<Step>, c: Config, n: nat, w: Uuid)
    requires IsRun(trace, steps, c) && n <= |steps|
    ensures Ready(trace[n], w)
  {
    Stranding.AlwaysSysOk(trace, steps, c, n);
    Publishing.RowsNameObjects(trace, steps, c, n);
    if IsWorking(trace[n], w) {
      assert Publishing.WorkOk(trace[n], c, w);
      assert AttemptOk(trace[n].db, trace[n].workers[w].attempt);
    }
  }

  lemma ShowsStep(trace: seq<Sys>, steps: seq<Step>, c: Config, k: nat, w: Uuid, duty: Duty, sign: Option<int>)
    requires IsRun(trace, steps, c) && k < |steps| && Shows(trace[k].db, w, duty, sign)
    ensures Shows(trace[k + 1].db, w, DutyAfter(trace[k], steps[k], w, duty),
                  if IsSign(steps[k], w) then Some(trace[k].now) else sign)
  {
    if IsSign(steps[k], w) {
      WorkerReady(trace, steps, c, k, w);
      SignShows(trace[k], steps[k], c, w, duty, sign);
    } else if BuriesWorker(trace[k], steps[k], w) {
      BurialShows(trace[k], steps[k], c, w, duty, sign);
    } else {
      RestShows(trace[k], steps[k], c, w, duty, sign);
    }
  }

  /**
   In every run the row of a worker shows what the worker was last reported to be doing, and its
   heartbeat is the time of its last sign of life.
   */
  lemma {:induction false} WorkerRowTells(trace: seq<Sys>, steps: seq<Step>, c: Config, n: nat, w: Uuid)
    requires IsRun(trace, steps, c) && n <= |steps|
    ensures Shows(trace[n].db, w, DutyOf(trace, steps, c, n, w), LastSign(trace, steps, c, n, w))
  {
    if n > 0 {
      var k := n - 1;
      WorkerRowTells(trace, steps, c, k, w);
      ShowsStep(trace, steps, c, k, w, DutyOf(trace, steps, c, k, w), LastSign(trace, steps, c, k, w));
    }
  }

  /**
   The scan of the death pass selects a worker exactly when it was last reported at work and has
   given no sign of life for longer than the threshold.
   */
  lemma DeathScanExact(trace: seq<Sys>, steps: seq<Step>, c: Config, n: nat, w: Uuid)
    requires IsRun(trace, steps, c) && n <= |steps|
    ensures Sweep.IsStaleWorker(trace[n].db, w, c.sweep, trace[n].now) <==>
              && DutyOf(trace, steps, c, n, w).On?
              && LastSign(trace, steps, c, n, w).Some?
              && trace[n].now > LastSign(trace, steps, c, n, w).value + c.sweep.deadWorkerThreshold
  {
    WorkerRowTells(trace, steps, c, n, w);
  }

  predicate ShowsBusy(db: Db, w: Uuid) {
    w in db.workers && db.workers[w].status == Busy
  }

  lemma OnlyBusyShowsBusy(db: Db, e: Event, w: Uuid)
    ensures ShowsBusy(Apply(db, e), w) ==>
              (ShowsBusy(db, w) && !(e.SetIdle? && e.worker == w)) || (e.SetBusy? && e.worker == w)
  {
  }

  lemma StaysOff(trace: seq<Sys>, steps: seq<Step>, c: Config, k: nat, w: Uuid)
    requires IsRun(trace, steps, c) && k < |steps|
    requires steps[k] == GoIdle(w) || (steps[k] != MarkBusy(w) && !ShowsBusy(trace[k].db, w))
    ensures !ShowsBusy(trace[k + 1].db, w)
  {
    if EventOf(trace[k], steps[k], c).Some? {
      OnlyBusyShowsBusy(trace[k].db, EventOf(trace[k], steps[k], c).value, w);
    }
  }

  lemma {:induction false} OffUntilBusy(trace: seq<Sys>, steps: seq<Step>, c: Config, n: nat, m: nat, w: Uuid)
    requires IsRun(trace, steps, c) && n < m <= |steps| && steps[n] == GoIdle(w)
    requires forall i :: n < i < m ==> steps[i] != MarkBusy(w)
    ensures !ShowsBusy(trace[m].db, w)
    decreases m
  {
    var k := m - 1;
    if k > n {
      OffUntilBusy(trace, steps, c, n, k, w);
    }
    StaysOff(trace, steps, c, k, w);
  }

  /** After a worker has gone idle, no scan of any reaper selects it until it reports busy again. */
  lemma IdleWorkerIsSafe(trace: seq<Sys>, steps: seq<Step>, c: Config, n: nat, m: nat, w: Uuid)
    requires IsRun(trace, steps, c) && n < m < |steps| && steps[n] == GoIdle(w) && steps[m].ScanWorkers?
    requires forall i :: n < i < m ==> steps[i] != MarkBusy(w)
    ensures forall row :: row in steps[m].dead ==> row.id != w
  {
    OffUntilBusy(trace, steps, c, n, m, w);
    forall row | row in steps[m].dead ensures row.id != w {
      ScannedIsStale(trace[m], steps[m], c, row);
    }
  }

  /** Worker `w` is between two jobs. */
  predicate BetweenJobs(s: Sys, w: Uuid) {
    w in s.workers && (s.workers[w].Polling? || s.workers[w].Popped?)
  }

  lemma ComesToRest(s: Sys, step: Step, c: Config, w: Uuid, duty: Duty)
    requires Enabled(s, step, c) && step != SkipIdle(w) && (BetweenJobs(s, w) ==> !duty.On?)
    ensures BetweenJobs(Next(s, step, c), w) ==> !DutyAfter(s, step, w, duty).On?
  {
  }

  lemma {:induction false} OffBetweenJobs(trace: seq<Sys>, steps: seq<Step>, c: Config, n: nat, w: Uuid)
    requires IsRun(trace, steps, c) && n <= |steps|
    requires forall i :: 0 <= i < n ==> steps[i] != SkipIdle(w)
    ensures BetweenJobs(trace[n], w) ==> !DutyOf(trace, steps, c, n, w).On?
  {
    if n > 0 {
      var k := n - 1;
      OffBetweenJobs(trace, steps, c, k, w);
      ComesToRest(trace[k], steps[k], c, w, DutyOf(trace, steps, c, k, w));
    }
  }

  /** A worker between two jobs is never taken for dead, unless it could not report itself idle. */
  lemma RestingWorkerIsSafe(trace: seq<Sys>, steps: seq<Step>, c: Config, n: nat, w: Uuid)
    requires IsRun(trace, steps, c) && n <= |steps| && BetweenJobs(trace[n], w)
    requires forall i :: 0 <= i < n ==> steps[i] != SkipIdle(w)
    ensures !Sweep.IsStaleWorker(trace[n].db, w, c.sweep, trace[n].now)
  {
    OffBetweenJobs(trace, steps, c, n, w);
    DeathScanExact(trace, steps, c, n, w);
  }

  lemma ScannedIsStale(s: Sys, step: Step, c: Config, row: Sweep.DeadWorker)
    requires Enabled(s, step, c) && step.ScanWorkers? && row in step.dead
    ensures Sweep.IsStaleWorker(s.db, row.id, c.sweep, s.now) && s.db.workers[row.id].currentJob == row.currentJob
  {
    assert row in Elements(step.dead);
  }

  // ---------- job rows ----------

  /** The time of the last step that wrote the row of job `j`. */
  ghost function LastChange(trace: seq<Sys>, steps: seq<Step>, c: Config, n: nat, j: Uuid): Option<int>
    requires IsRun(trace, steps, c) && n <= |steps|
  {
    if n == 0 then None
    else if RowChanges(trace[n - 1].db, trace[n].db, j) then Some(trace[n - 1].now)
    else LastChange(trace, steps, c, n - 1, j)
  }

  lemma JobEventTime(s: Sys, step: Step, c: Config, j: Uuid)
    requires Enabled(s, step, c) && RowChanges(s.db, NextDb(s, step, c), j) && (j in s.db.jobs ==> JobOk(s.db, j))
    ensures NextDb(s, step, c).jobs[j].updatedAt == s.now
  {
    JobStep(s.db, EventOf(s, step, c).value, j);
  }

  lemma JobsStay(s: Sys, step: Step, c: Config, j: Uuid)
    requires Enabled(s, step, c) && j in s.db.jobs && JobOk(s.db, j)
    ensures j in NextDb(s, step, c).jobs
  {
    if EventOf(s, step, c).Some? {
      JobStep(s.db, EventOf(s, step, c).value, j);
    }
  }

  lemma JobReady(trace: seq<Sys>, steps: seq<Step>, c: Config, n: nat, j: Uuid)
    requires IsRun(trace, steps, c) && n <= |steps|
    ensures j in trace[n].db.jobs ==> JobOk(trace[n].db, j)
  {
    SystemRunsTransactions(trace, steps, c, n);
  }

  lemma {:induction false} UpdatedAtTells(trace: seq<Sys>, steps: seq<Step>, c: Config, n: nat, j: Uuid)
    requires IsRun(trace, steps, c) && n <= |steps|
    ensures LastChange(trace, steps, c, n, j) ==
              if j in trace[n].db.jobs then Some(trace[n].db.jobs[j].updatedAt) else None
  {
    if n > 0 {
      var k := n - 1;
      UpdatedAtTells(trace, steps, c, k, j);
      JobReady(trace, steps, c, k, j);
      assert trace[n].db == NextDb(trace[k], steps[k], c);
      if RowChanges(trace[k].db, trace[n].db, j) {
        JobEventTime(trace[k], steps[k], c, j);
      } else if j in trace[k].db.jobs {
        JobsStay(trace[k], steps[k], c, j);
      }
    }
  }

  /**
   The scan of the reconciliation pass selects a job exactly when it is queued and no transaction
   has written its row for longer than the threshold.
   */
  lemma QueueScanExact(trace: seq<Sys>, steps: seq<Step>, c: Config, n: nat, j: Uuid)
    requires IsRun(trace, steps, c) && n <= |steps|
    ensures Sweep.IsStaleQueued(trace[n].db, j, c.sweep, trace[n].now) <==>
              && HasStatus(trace[n].db, j, Queued)
              && LastChange(trace, steps, c, n, j).Some?
              && trace[n].now > LastChange(trace, steps, c, n, j).value + c.sweep.staleQueueThreshold
  {
    UpdatedAtTells(trace, steps, c, n, j);
  }

  // ---------- attempt rows ----------

  /** The phase that the worker of attempt `a` last entered while the attempt was running. */
  ghost function EnteredPhase(trace: seq<Sys>, steps: seq<Step>, c: Config, n: nat, a: Uuid): Phase
    requires IsRun(trace, steps, c) && n <= |steps|
  {
    if n == 0 then Claiming
    else
      var s, step := trace[n - 1], steps[n - 1];
      if step.EnterPhase? && s.workers[step.w].attempt == a && IsRunning(s.db, a) then step.phase
      else EnteredPhase(trace, steps, c, n - 1, a)
  }

  lemma PhaseAfter(s: Sys, step: Step, c: Config, a: Uuid)
    requires Enabled(s, step, c) && a in s.db.attempts
    ensures a in NextDb(s, step, c).attempts
    ensures var att, att' := s.db.attempts[a], NextDb(s, step, c).attempts[a];
            att'.phase == if att.status == Running && att'.status == Succeeded then Finished
                          else if step.EnterPhase? && s.workers[step.w].attempt == a && att.status == Running
                          then step.phase else att.phase
  {
    if EventOf(s, step, c).Some? {
      PhaseStep(s.db, EventOf(s, step, c).value, a);
    }
  }

  lemma ClaimedPhase(s: Sys, step: Step, c: Config, a: Uuid)
    requires Enabled(s, step, c) && a !in s.db.attempts && a in NextDb(s, step, c).attempts
    ensures NextDb(s, step, c).attempts[a].phase == Claiming && NextDb(s, step, c).attempts[a].status == Running
  {
    ClaimStep(s.db, EventOf(s, step, c).value, a);
  }

  lemma SuccessStays(trace: seq<Sys>, steps: seq<Step>, c: Config, n: nat, a: Uuid)
    requires IsRun(trace, steps, c) && n < |steps| && a in trace[n].db.attempts
    ensures a in trace[n + 1].db.attempts
    ensures trace[n].db.attempts[a].status != Running ==>
              trace[n + 1].db.attempts[a].status == trace[n].db.attempts[a].status
  {
    SystemRunsTransactions(trace, steps, c, n);
    if EventOf(trace[n], steps[n], c).Some? {
      var e := EventOf(trace[n], steps[n], c).value;
      EndedStays(trace[n].db, e, a);
    }
  }

  lemma EndedStays(db: Db, e: Event, a: Uuid)
    requires Inv(db) && a in db.attempts
    ensures a in Apply(db, e).attempts
    ensures db.attempts[a].status != Running ==> Apply(db, e).attempts[a].status == db.attempts[a].status
  {
    if (e.Complete? || e.Fail? || e.Recover?) && e.job in db.jobs {
      assert JobOk(db, e.job);
    }
    OriginStep(db, e, a);
    if db.attempts[a].status != Running {
      EndStep(db, e, a);
    }
  }

  /** In every run the phase of an attempt that has not succeeded is the last one its worker entered. */
  lemma {:induction false} PhaseTells(trace: seq<Sys>, steps: seq<Step>, c: Config, n: nat, a: Uuid)
    requires IsRun(trace, steps, c) && n <= |steps|
    ensures if a in trace[n].db.attempts
            then trace[n].db.attempts[a].phase ==
                   if trace[n].db.attempts[a].status == Succeeded then Finished else EnteredPhase(trace, steps, c, n, a)
            else EnteredPhase(trace, steps, c, n, a) == Claiming
  {
    if n > 0 {
      var k := n - 1;
      PhaseTells(trace, steps, c, k, a);
      assert trace[n].db == NextDb(trace[k], steps[k], c);
      if a in trace[k].db.attempts {
        PhaseAfter(trace[k], steps[k], c, a);
        SuccessStays(trace, steps, c, k, a);
      } else if a in trace[n].db.attempts {
        ClaimedPhase(trace[k], steps[k], c, a);
      }
    }
  }

  /** The value last noted for a duration of attempt `a`. */
  ghost function LastNoted(trace: seq<Sys>, steps: seq<Step>, c: Config, n: nat, a: Uuid, f: DurationField)
    : Option<nat>
    requires IsRun(trace, steps, c) && n <= |steps|
  {
    if n == 0 then None
    else
      var s, step := trace[n - 1], steps[n - 1];
      if step.NoteDuration? && s.workers[step.w].attempt == a && step.field == f && a in s.db.attempts
      then Some(step.ms) else LastNoted(trace, steps, c, n - 1, a, f)
  }

  function DurationIn(db: Db, a: Uuid, f: DurationField): Option<nat> {
    if a in db.attempts && f in db.attempts[a].durations then Some(db.attempts[a].durations[f]) else None
  }

  lemma DurationAfter(s: Sys, step: Step, c: Config, a: Uuid, f: DurationField)
    requires Enabled(s, step, c)
    ensures DurationIn(NextDb(s, step, c), a, f) ==
              if step.NoteDuration? && s.workers[step.w].attempt == a && step.field == f && a in s.db.attempts
              then Some(step.ms) else DurationIn(s.db, a, f)
  {
    if EventOf(s, step, c).Some? {
      if a in s.db.attempts {
        DurationStep(s.db, EventOf(s, step, c).value, a);
      } else if a in NextDb(s, step, c).attempts {
        ClaimStep(s.db, EventOf(s, step, c).value, a);
      }
    }
  }

  /** In every run the durations of an attempt are the last ones noted for it. */
  lemma {:induction false} DurationTells(trace: seq<Sys>, steps: seq<Step>, c: Config, n: nat, a: Uuid,
                                         f: DurationField)
    requires IsRun(trace, steps, c) && n <= |steps|
    ensures DurationIn(trace[n].db, a, f) == LastNoted(trace, steps, c, n, a, f)
  {
    if n > 0 {
      var k := n - 1;
      DurationTells(trace, steps, c, k, a, f);
      DurationAfter(trace[k], steps[k], c, a, f);
    }
  }

  // ---------- how attempts end ----------

  /** The step ends attempt `a`, and the row `att` of the attempt says so. */
  ghost predicate EndsBy(s: Sys, step: Step, a: Uuid, att: Attempt) {
    && att.finishedAt == Some(s.now)
    && match step
       case CompleteJob(w) =>
         IsWorking(s, w) && s.workers[w].attempt == a && att.status == Succeeded && att.category == None
       case FailJob(w) =>
         && IsWorking(s, w) && s.workers[w].attempt == a
         && att.status == Failed && att.category == Some(ProcessingFailure)
       case RecoverDeath(r) =>
         && r in s.reapers && s.reapers[r].Recovering? && s.reapers[r].job == att.job
         && att.status == Expired && att.category == Some(WorkerDeath)
       case RecoverLease(r) =>
         && r in s.reapers && s.reapers[r].Expiring? && s.reapers[r].attempts != []
         && s.reapers[r].attempts[0].attempt == a
         && att.status == Expired && att.category == Some(LeaseExpired)
       case _ => false
  }

  lemma EndingStep(s: Sys, step: Step, c: Config, a: Uuid)
    requires Enabled(s, step, c) && IsRunning(s.db, a) && s.db.attempts[a].category == None
    requires EventOf(s, step, c).Some? ==> KnowsJob(s.db, EventOf(s, step, c).value)
    ensures a in NextDb(s, step, c).attempts
    ensures !IsRunning(NextDb(s, step, c), a) ==> EndsBy(s, step, a, NextDb(s, step, c).attempts[a])
  {
    if EventOf(s, step, c).Some? {
      OriginStep(s.db, EventOf(s, step, c).value, a);
      EndStep(s.db, EventOf(s, step, c).value, a);
    }
  }

  lemma EndStays(s: Sys, step: Step, c: Config, a: Uuid)
    requires Enabled(s, step, c) && a in s.db.attempts && !IsRunning(s.db, a)
    requires EventOf(s, step, c).Some? ==> KnowsJob(s.db, EventOf(s, step, c).value)
    ensures a in NextDb(s, step, c).attempts
    ensures var att, att' := s.db.attempts[a], NextDb(s, step, c).attempts[a];
            && att'.job == att.job
            && att'.status == att.status && att'.finishedAt == att.finishedAt && att'.category == att.category
  {
    if EventOf(s, step, c).Some? {
      OriginStep(s.db, EventOf(s, step, c).value, a);
      EndStep(s.db, EventOf(s, step, c).value, a);
    }
  }

  lemma EndReady(trace: seq<Sys>, steps: seq<Step>, c: Config, n: nat, a: Uuid)
    requires IsRun(trace, steps, c) && n < |steps|
    ensures IsRunning(trace[n].db, a) ==> trace[n].db.attempts[a].category == None
    ensures EventOf(trace[n], steps[n], c).Some? ==> KnowsJob(trace[n].db, EventOf(trace[n], steps[n], c).value)
  {
    SystemRunsTransactions(trace, steps, c, n);
    AttemptEnd(Commits(trace, steps, c, n), a);
  }

  lemma EndStepOfRun(trace: seq<Sys>, steps: seq<Step>, c: Config, n: nat, a: Uuid)
    requires IsRun(trace, steps, c) && n < |steps| && a in trace[n].db.attempts && !IsRunning(trace[n + 1].db, a)
    ensures a in trace[n + 1].db.attempts
    ensures var att, att' := trace[n].db.attempts[a], trace[n + 1].db.attempts[a];
            if IsRunning(trace[n].db, a) then EndsBy(trace[n], steps[n], a, att')
            else att'.job == att.job
                 && att'.status == att.status && att'.finishedAt == att.finishedAt && att'.category == att.category
  {
    EndReady(trace, steps, c, n, a);
    if IsRunning(trace[n].db, a) {
      EndingStep(trace[n], steps[n], c, a);
    } else {
      EndStays(trace[n], steps[n], c, a);
    }
  }

  /**
   In every run an attempt that is over was ended by one step of its worker or of a reaper, and its
   row tells by which kind of step, why and when.
   */
  lemma {:induction false} EndTells(trace: seq<Sys>, steps: seq<Step>, c: Config, n: nat, a: Uuid) returns (k: nat)
    requires IsRun(trace, steps, c) && n <= |steps| && a in trace[n].db.attempts && !IsRunning(trace[n].db, a)
    ensures k < n && IsRunning(trace[k].db, a) && EndsBy(trace[k], steps[k], a, trace[n].db.attempts[a])
  {
    k := n - 1;
    if a !in trace[k].db.attempts {
      ClaimedPhase(trace[k], steps[k], c, a);
      assert false;
    }
    EndStepOfRun(trace, steps, c, k, a);
    if !IsRunning(trace[k].db, a) {
      k := EndTells(trace, steps, c, k, a);
    }
  }
}
