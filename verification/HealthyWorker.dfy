/**
 A run of the whole system, under any configuration and without a single fault step, in which the
 worker-death pass retires the live attempt of a healthy worker. Worker 1 fails job 10, tells the
 queue, and stalls before it gets to clear its row; worker 2 takes the job over; the next sweep
 buries worker 1 and with it the attempt of worker 2.
 */
module HealthyWorker {
  import opened Common
  import opened Database
  import opened Lifecycle
  import opened PriorityQueue
  import opened System
  import opened Journeys
  import Sweep

  ghost predicate Moves(s: Sys, step: Step, s': Sys, c: Config) {
    Enabled(s, step, c) && Next(s, step, c) == s'
  }

  /** One more step of a run without faults. */
  lemma Move(t: Journey, c: Config, step: Step, s': Sys) returns (t': Journey)
    requires IsJourney(t, c) && Continues(SETTING_OUT, t) && Moves(Reached(t, c), step, s', c) && !IsFault(step)
    ensures IsJourney(t', c) && Continues(SETTING_OUT, t') && Reached(t', c) == s'
  {
    t' := Go(t, step, c);
    ContinuesTransitive(SETTING_OUT, t, t');
  }

  // ---------- the states on the way ----------

  const ONE_ENTRY: Redis := Redis({0}, map[0 := [10]], {10})

  /** How long worker 1 stays silent: just too long. */
  function Pause(c: Config): nat {
    c.sweep.deadWorkerThreshold + 1
  }

  function FirstTry(c: Config, status: AttemptStatus): Attempt {
    var ended := status != Running;
    Attempt(10, 1, 1, status, 0, 0, c.leaseTtl, if ended then Some(0) else None, Claiming,
            if ended then Some(ProcessingFailure) else None, map[])
  }

  function SecondTry(c: Config): Attempt {
    Attempt(10, 2, 2, Running, 0, Pause(c), Pause(c) + c.leaseTtl, None, Claiming, None, map[])
  }

  /** Job 10 is submitted and known to the queue; two workers are polling. */
  function Submitted(): Sys {
    Sys(0,
        Db(map[10 := Job(Queued, 0, 3, 0, 0, 0, None, None, None)], map[], map[],
           map[1 := WorkerRow(Idle, None, 0), 2 := WorkerRow(Idle, None, 0)]),
        ONE_ENTRY, map[], map[], map[1 := Polling, 2 := Polling], map[])
  }

  /** Worker 1 is at work. */
  function Started(c: Config): Sys {
    Sys(0,
        Db(map[10 := Job(Processing, 0, 3, 0, 0, 0, Some(100), None, None)], map[100 := FirstTry(c, Running)], map[],
           map[1 := WorkerRow(Busy, Some(10), 0), 2 := WorkerRow(Idle, None, 0)]),
        EMPTY_QUEUE, map[], map[], map[1 := Working(10, 100, [], {}), 2 := Polling], map[])
  }

  /** Worker 1 has failed and said so, but its row still shows it at work. */
  function Stalled(c: Config): Sys {
    Sys(0,
        Db(map[10 := Job(Queued, 1, 3, 0, 0, 0, None, None, None)], map[100 := FirstTry(c, Failed)], map[],
           map[1 := WorkerRow(Busy, Some(10), 0), 2 := WorkerRow(Idle, None, 0)]),
        ONE_ENTRY, map[], map[], map[1 := Finishing, 2 := Polling], map[])
  }

  /** Worker 2 has taken over, and has just been heard of. */
  function TakenOver(c: Config): Sys {
    Sys(Pause(c),
        Db(map[10 := Job(Processing, 1, 3, 0, 0, Pause(c), Some(101), None, None)],
           map[100 := FirstTry(c, Failed), 101 := SecondTry(c)], map[],
           map[1 := WorkerRow(Busy, Some(10), 0), 2 := WorkerRow(Busy, Some(10), Pause(c))]),
        EMPTY_QUEUE, map[], map[], map[1 := Finishing, 2 := Working(10, 101, [], {})], map[])
  }

  /** The row that the reaper scans. */
  const SILENT: Sweep.DeadWorker := Sweep.DeadWorker(1, Some(10))

  /** The reaper has buried worker 1 and is about to recover its job. */
  function Buried(c: Config): Sys {
    TakenOver(c).(db := TakenOver(c).db.(workers := map[1 := WorkerRow(Lost, None, 0),
                                                        2 := WorkerRow(Busy, Some(10), Pause(c))]),
                  reapers := map[7 := Recovering(1, 10, [])])
  }

  // ---------- one phase after the other ----------

  function Registered(): Sys {
    Submitted().(db := EMPTY.(workers := Submitted().db.workers), queue := EMPTY_QUEUE)
  }

  function Alone(): Sys {
    INIT.(db := EMPTY.(workers := map[1 := WorkerRow(Idle, None, 0)]), workers := map[1 := Polling])
  }

  lemma Registration(c: Config)
    ensures Moves(INIT, StartWorker(1), Alone(), c)
    ensures Moves(Alone(), StartWorker(2), Registered(), c)
  {
    assert Alone().db.workers[2 := WorkerRow(Idle, None, 0)] == Registered().db.workers;
    assert Alone().workers[2 := Polling] == Registered().workers;
  }

  function Committed(): Sys {
    Submitted().(queue := EMPTY_QUEUE, api := map[10 := 0])
  }

  lemma Submission(c: Config)
    ensures Moves(Registered(), Submit(10, 3, 0), Committed(), c)
    ensures Moves(Committed(), TellSubmitted(10), Submitted(), c)
  {
    assert Committed().api - {10} == map[];
    EnqueuesOne();
  }

  lemma EnqueuesOne()
    ensures Enqueue(EMPTY_QUEUE, 10, 0) == ONE_ENTRY
  {
    assert Tier(EMPTY_QUEUE, 0) + [10] == [10];
    assert EMPTY_QUEUE.index + {0} == {0} && EMPTY_QUEUE.members + {10} == {10};
  }

  lemma PopsOne()
    ensures PopResult(ONE_ENTRY) == Some(10) && PopScript(ONE_ENTRY) == EMPTY_QUEUE
  {
    assert TopTier({0}) == 0;
    assert ONE_ENTRY.lists - {0} == map[] && ONE_ENTRY.index - {0} == {} && ONE_ENTRY.members - {10} == {};
  }

  function FirstPopped(): Sys {
    Submitted().(queue := EMPTY_QUEUE, workers := map[1 := Popped(10), 2 := Polling])
  }

  function FirstClaimed(c: Config): Sys {
    Started(c).(db := Started(c).db.(workers := Submitted().db.workers))
  }

  lemma FirstPop(c: Config)
    ensures Moves(Submitted(), PopJob(1), FirstPopped(), c)
  {
    PopsOne();
    assert Submitted().workers[1 := Popped(10)] == FirstPopped().workers;
  }

  lemma FirstClaim(c: Config)
    ensures Moves(FirstPopped(), ClaimJob(1, 100), FirstClaimed(c), c)
  {
    var s := FirstPopped();
    assert ClaimTakes(s.db, 10, 100, 1);
    assert s.workers[1 := Working(10, 100, [], {})] == FirstClaimed(c).workers;
    assert s.db.jobs[10 := FirstClaimed(c).db.jobs[10]] == FirstClaimed(c).db.jobs;
  }

  lemma FirstBusy(c: Config)
    ensures Moves(FirstClaimed(c), MarkBusy(1), Started(c), c)
  {
    assert FirstClaimed(c).db.workers[1 := WorkerRow(Busy, Some(10), 0)] == Started(c).db.workers;
  }

  function Announced(c: Config): Sys {
    Stalled(c).(queue := EMPTY_QUEUE, workers := map[1 := Announcing(10, 0), 2 := Polling])
  }

  lemma FailureCommits(c: Config)
    ensures FailTx(Started(c).db, 10, 100, 0) == Announced(c).db
  {
    var db := Started(c).db;
    assert db.jobs[10 := Announced(c).db.jobs[10]] == Announced(c).db.jobs;
    assert db.attempts[100 := FirstTry(c, Failed)] == Announced(c).db.attempts;
  }

  lemma Failure(c: Config)
    ensures Moves(Started(c), FailJob(1), Announced(c), c)
  {
    FailureCommits(c);
    assert EventOf(Started(c), FailJob(1), c) == Some(Fail(10, 100, 0));
    assert Started(c).workers[1 := Announcing(10, 0)] == Announced(c).workers;
  }

  lemma Requeueing(c: Config)
    ensures Moves(Announced(c), TellRetry(1), Stalled(c), c)
  {
    EnqueuesOne();
    assert Announced(c).workers[1 := Finishing] == Stalled(c).workers;
  }

  function SecondPopped(c: Config, now: int): Sys {
    Stalled(c).(now := now, queue := EMPTY_QUEUE, workers := map[1 := Finishing, 2 := Popped(10)])
  }

  lemma SecondPop(c: Config)
    ensures Moves(Stalled(c), PopJob(2), SecondPopped(c, 0), c)
    ensures Moves(SecondPopped(c, 0), TimePasses(Pause(c)), SecondPopped(c, Pause(c)), c)
  {
    PopsOne();
    assert Stalled(c).workers[2 := Popped(10)] == SecondPopped(c, 0).workers;
  }

  function SecondClaimed(c: Config): Sys {
    TakenOver(c).(db := TakenOver(c).db.(workers := Stalled(c).db.workers))
  }

  lemma SecondClaimCommits(c: Config)
    ensures ClaimTakes(Stalled(c).db, 10, 101, 2)
    ensures ClaimTx(Stalled(c).db, 10, 101, 2, c.leaseTtl, Pause(c)) == SecondClaimed(c).db
  {
    var db := Stalled(c).db;
    assert db.jobs[10 := SecondClaimed(c).db.jobs[10]] == SecondClaimed(c).db.jobs;
    assert db.attempts[101 := SecondTry(c)] == SecondClaimed(c).db.attempts;
  }

  lemma SecondClaim(c: Config)
    ensures Moves(SecondPopped(c, Pause(c)), ClaimJob(2, 101), SecondClaimed(c), c)
  {
    SecondClaimCommits(c);
    var s := SecondPopped(c, Pause(c));
    assert EventOf(s, ClaimJob(2, 101), c) == Some(Claim(10, 101, 2, c.leaseTtl, Pause(c)));
    assert s.workers[2 := Working(10, 101, [], {})] == SecondClaimed(c).workers;
  }

  lemma SecondBusy(c: Config)
    ensures Moves(SecondClaimed(c), MarkBusy(2), TakenOver(c), c)
  {
    assert SecondClaimed(c).db.workers[2 := WorkerRow(Busy, Some(10), Pause(c))] == TakenOver(c).db.workers;
  }

  function Sweeping(c: Config, pc: ReaperPc): Sys {
    TakenOver(c).(reapers := map[7 := pc])
  }

  lemma OneStaleWorker(c: Config)
    ensures var db := TakenOver(c).db;
            (set w | w in db.workers && Sweep.IsStaleWorker(db, w, c.sweep, Pause(c))
                 :: Sweep.DeadWorker(w, db.workers[w].currentJob)) == Elements([SILENT])
  {
    var db := TakenOver(c).db;
    assert Sweep.IsStaleWorker(db, 1, c.sweep, Pause(c)) && !Sweep.IsStaleWorker(db, 2, c.sweep, Pause(c));
    assert SILENT == Sweep.DeadWorker(1, db.workers[1].currentJob);
  }

  lemma Scan(c: Config)
    ensures Moves(TakenOver(c), StartReaper(7), Sweeping(c, Resting), c)
    ensures Moves(Sweeping(c, Resting), ScanWorkers(7, [SILENT]), Sweeping(c, Burying([SILENT])), c)
  {
    OneStaleWorker(c);
    assert map[7 := Resting][7 := Burying([SILENT])] == map[7 := Burying([SILENT])];
  }

  lemma Burial(c: Config)
    ensures Moves(Sweeping(c, Burying([SILENT])), BuryWorker(7), Buried(c), c)
  {
    var s := Sweeping(c, Burying([SILENT]));
    assert [SILENT][1..] == [];
    assert s.reapers[7 := Recovering(1, 10, [])] == Buried(c).reapers;
    assert s.db.workers[1 := WorkerRow(Lost, None, 0)] == Buried(c).db.workers;
  }

  // ---------- the run ----------

  lemma RunToRegistration(c: Config) returns (t: Journey)
    ensures IsJourney(t, c) && Continues(SETTING_OUT, t) && Reached(t, c) == Registered()
  {
    t := SETTING_OUT;
    Registration(c);
    t := Move(t, c, StartWorker(1), Alone());
    t := Move(t, c, StartWorker(2), Registered());
  }

  lemma RunToSubmission(c: Config) returns (t: Journey)
    ensures IsJourney(t, c) && Continues(SETTING_OUT, t) && Reached(t, c) == Submitted()
  {
    t := RunToRegistration(c);
    Submission(c);
    t := Move(t, c, Submit(10, 3, 0), Committed());
    t := Move(t, c, TellSubmitted(10), Submitted());
  }

  lemma RunToStart(c: Config) returns (t: Journey)
    ensures IsJourney(t, c) && Continues(SETTING_OUT, t) && Reached(t, c) == Started(c)
  {
    t := RunToSubmission(c);
    FirstPop(c);
    t := Move(t, c, PopJob(1), FirstPopped());
    FirstClaim(c);
    t := Move(t, c, ClaimJob(1, 100), FirstClaimed(c));
    FirstBusy(c);
    t := Move(t, c, MarkBusy(1), Started(c));
  }

  lemma RunToStall(c: Config) returns (t: Journey)
    ensures IsJourney(t, c) && Continues(SETTING_OUT, t) && Reached(t, c) == Stalled(c)
  {
    t := RunToStart(c);
    Failure(c);
    t := Move(t, c, FailJob(1), Announced(c));
    Requeueing(c);
    t := Move(t, c, TellRetry(1), Stalled(c));
  }

  lemma RunToTakeover(c: Config) returns (t: Journey)
    ensures IsJourney(t, c) && Continues(SETTING_OUT, t) && Reached(t, c) == TakenOver(c)
  {
    t := RunToStall(c);
    SecondPop(c);
    t := Move(t, c, PopJob(2), SecondPopped(c, 0));
    t := Move(t, c, TimePasses(Pause(c)), SecondPopped(c, Pause(c)));
    SecondClaim(c);
    t := Move(t, c, ClaimJob(2, 101), SecondClaimed(c));
    SecondBusy(c);
    t := Move(t, c, MarkBusy(2), TakenOver(c));
  }

  lemma RunToSweep(c: Config) returns (t: Journey)
    ensures IsJourney(t, c) && Continues(SETTING_OUT, t) && Reached(t, c) == Sweeping(c, Resting)
  {
    t := RunToTakeover(c);
    Scan(c);
    t := Move(t, c, StartReaper(7), Sweeping(c, Resting));
  }

  /**
   Worker 1 is about to have job 10 recovered in its name, although its own attempt 100 has failed
   before; worker 2 is busy, has been heard of, and is working on the current attempt 101 within
   its lease.
   */
  predicate HealthyWorkerAtRisk(s: Sys, c: Config) {
    && 7 in s.reapers && s.reapers[7] == Recovering(1, 10, [])
    && Stale(s.db, 100) && s.db.attempts[100].worker == 1 && s.db.attempts[100].status == Failed
    && 2 in s.workers && s.workers[2].Working? && s.workers[2].attempt == 101
    && IsCurrent(s.db, 10, 101) && 101 in s.db.attempts
    && s.db.attempts[101].worker == 2 && s.db.attempts[101].status == Running
    && 2 in s.db.workers && s.db.workers[2].status == Busy
    && !Sweep.IsStaleWorker(s.db, 2, c.sweep, s.now) && !Sweep.IsExpired(s.db, 101, c.sweep, s.now)
    && s.db.jobs[10].retryCount == 1
  }

  lemma BurialState(c: Config)
    ensures HealthyWorkerAtRisk(Buried(c), c)
  {
  }

  lemma RecoveryCommits(c: Config)
    ensures var db := RecoverTx(Buried(c).db, 10, None, WorkerDeath, Pause(c));
            && 101 in db.attempts && db.attempts[101].status == Expired
            && 10 in db.jobs && db.jobs[10].retryCount == 2
  {
  }

  lemma FatalRecovery(c: Config) returns (s': Sys)
    ensures Moves(Buried(c), RecoverDeath(7), s', c)
    ensures 101 in s'.db.attempts && s'.db.attempts[101].status == Expired
    ensures 10 in s'.db.jobs && s'.db.jobs[10].retryCount == 2
  {
    RecoveryCommits(c);
    assert EventOf(Buried(c), RecoverDeath(7), c) == Some(Recover(10, None, WorkerDeath, Pause(c)));
    s' := Next(Buried(c), RecoverDeath(7), c);
  }

  lemma Bury(t: Journey, c: Config) returns (t': Journey)
    requires IsJourney(t, c) && Reached(t, c) == Sweeping(c, Resting)
    ensures IsJourney(t', c) && Continues(t, t') && |t'.steps| == |t.steps| + 2
    ensures t'.steps[|t.steps|] == ScanWorkers(7, [SILENT]) && Reached(t', c) == Buried(c)
  {
    Scan(c);
    var t1 := Go(t, ScanWorkers(7, [SILENT]), c);
    Burial(c);
    t' := Go(t1, BuryWorker(7), c);
    ContinuesTransitive(t, t1, t');
  }

  /** The last three steps. */
  lemma Strike(t: Journey, c: Config) returns (t': Journey)
    requires IsJourney(t, c) && Reached(t, c) == Sweeping(c, Resting)
    ensures IsJourney(t', c) && Continues(t, t') && |t'.steps| == |t.steps| + 3
    ensures t'.steps[|t.steps|] == ScanWorkers(7, [SILENT]) && t'.steps[|t.steps| + 2] == RecoverDeath(7)
    ensures t'.trace[|t.steps| + 2] == Buried(c)
    ensures 101 in Reached(t', c).db.attempts && Reached(t', c).db.attempts[101].status == Expired
    ensures 10 in Reached(t', c).db.jobs && Reached(t', c).db.jobs[10].retryCount == 2
  {
    var t2 := Bury(t, c);
    var s' := FatalRecovery(c);
    t' := Go(t2, RecoverDeath(7), c);
    ContinuesTransitive(t, t2, t');
  }

  /**
   Under every configuration there is such a run. Its last step is the recovery that follows the
   scan which selected worker 1; it expires the attempt of worker 2 and charges the job a second
   retry.
   */
  lemma DeathPassHitsHealthyWorker(c: Config) returns (trace: seq<Sys>, steps: seq<Step>, n: nat)
    ensures IsRun(trace, steps, c) && 2 <= n && |steps| == n + 1
    ensures forall i :: 0 <= i < |steps| ==> !IsFault(steps[i])
    ensures steps[n - 2] == ScanWorkers(7, [Sweep.DeadWorker(1, Some(10))]) && steps[n] == RecoverDeath(7)
    ensures HealthyWorkerAtRisk(trace[n], c)
    ensures var db := trace[n + 1].db;
            && 101 in db.attempts && db.attempts[101].status == Expired
            && 10 in db.jobs && db.jobs[10].retryCount == 2
  {
    var t := RunToSweep(c);
    var t' := Strike(t, c);
    ContinuesTransitive(SETTING_OUT, t, t');
    BurialState(c);
    trace, steps, n := t'.trace, t'.steps, |t.steps| + 2;
  }
}
