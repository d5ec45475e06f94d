/**
 Nothing is ever stuck: from every reachable state of the system, whatever faults have brought it
 there, one more worker and one sweep of one more reaper are enough to bring any given job to its
 end, without a further fault.
 */
module Progress {
  import opened Common
  import opened Database
  import opened Invariant
  import opened PriorityQueue
  import opened QueueRefinement
  import opened System
  import opened Journeys
  import Lifecycle
  import ObjectKeys
  import Ordering
  import Outputs
  import Publishing
  import Scans
  import Stranding
  import Sweep

  // ---------- fresh names, and scans that can always be made ----------

  lemma {:induction false} Above(s: set<Uuid>) returns (x: Uuid)
    ensures forall y :: y in s ==> y < x
    decreases |s|
  {
    x := 0;
    if s != {} {
      var z := SomeElement(s);
      x := Above(s - {z});
      x := if x <= z then z + 1 else x;
      forall y | y in s ensures y < x {
        assert y == z || y in s - {z};
      }
    }
  }

  lemma {:induction false} Listing<T(!new)>(s: set<T>) returns (rows: seq<T>)
    ensures Enumerates(rows, s)
    decreases |s|
  {
    rows := [];
    if s != {} {
      var x := SomeElement(s);
      var rest := Listing(s - {x});
      rows := [x] + rest;
      assert forall i :: 0 <= i < |rest| ==> rest[i] in Elements(rest);
      forall y ensures y in Elements(rows) <==> y in s {
        assert y in Elements(rest) <==> y in s - {x};
      }
    }
  }

  // ---------- where a job is heading ----------

  /** How job `job` ends if its current attempt, should it have one, is given up and it is then left in peace. */
  function Fate(job: Job): JobStatus {
    if job.status == Dead || (job.status == Processing && !RetriesLeft(job)) then Dead else Completed
  }

  /** Job `j` is heading for `fate`, and if it is being processed, then in attempt `a` with the given lease. */
  predicate Tracks(db: Db, j: Uuid, fate: JobStatus, a: Uuid, lease: int) {
    && j in db.jobs && Fate(db.jobs[j]) == fate
    && (db.jobs[j].status == Processing ==>
          && db.jobs[j].current == Some(a) && a in db.attempts
          && db.attempts[a].job == j && db.attempts[a].status == Running && db.attempts[a].leaseExpiresAt == lease)
  }

  lemma TracksStep(db: Db, e: Event, j: Uuid, fate: JobStatus, a: Uuid, lease: int)
    requires Tracks(db, j, fate, a, lease) && (e.MarkLost? || e.Recover?)
    requires e.Recover? && e.job in db.jobs ==> JobOk(db, e.job)
    ensures Tracks(Apply(db, e), j, fate, a, lease)
    ensures db.jobs[j].status != Processing ==> Apply(db, e).jobs[j] == db.jobs[j]
  {
  }

  // ---------- one sweep of one reaper, with everybody else standing still ----------

  /** Job `j`, as a sweep finds it: where it is heading, and its current attempt and lease, if any. */
  datatype Case = Case(job: Uuid, fate: JobStatus, attempt: Uuid, lease: int)

  /** Reaper `r` is at `pc`, and the job is on track. */
  ghost predicate At(s: Sys, r: Uuid, pc: ReaperPc, k: Case) {
    r in s.reapers && s.reapers[r] == pc && Tracks(s.db, k.job, k.fate, k.attempt, k.lease)
  }

  /** What the recovery steps of a sweep leave alone. */
  ghost predicate Calm(s: Sys, s': Sys, j: Uuid) {
    && s'.workers == s.workers && s'.now == s.now && s'.db.workers.Keys == s.db.workers.Keys
    && (j in s.db.jobs && s.db.jobs[j].status != Processing ==> j in s'.db.jobs && s'.db.jobs[j] == s.db.jobs[j])
  }

  lemma BurialMove(s: Sys, c: Config, r: Uuid, rows: seq<Sweep.DeadWorker>, k: Case)
    requires At(s, r, Burying(rows), k) && rows != []
    ensures Enabled(s, BuryWorker(r), c) && Calm(s, Next(s, BuryWorker(r), c), k.job)
    ensures At(Next(s, BuryWorker(r), c), r,
               if rows[0].currentJob.Some? then Recovering(rows[0].id, rows[0].currentJob.value, rows[1..])
               else Burying(rows[1..]), k)
  {
    TracksStep(s.db, MarkLost(rows[0].id), k.job, k.fate, k.attempt, k.lease);
  }

  /** After a recovery the reaper is at `next`, or has to tell the queue first. */
  ghost predicate AtOrTelling(s: Sys, r: Uuid, next: ReaperPc, k: Case) {
    && r in s.reapers && Tracks(s.db, k.job, k.fate, k.attempt, k.lease)
    && (s.reapers[r] == next || (s.reapers[r].Telling? && s.reapers[r].next == next))
  }

  lemma DeathMove(s: Sys, c: Config, r: Uuid, w: Uuid, j: Uuid, rest: seq<Sweep.DeadWorker>, k: Case)
    requires At(s, r, Recovering(w, j, rest), k) && (j in s.db.jobs ==> JobOk(s.db, j))
    ensures Enabled(s, RecoverDeath(r), c) && Calm(s, Next(s, RecoverDeath(r), c), k.job)
    ensures AtOrTelling(Next(s, RecoverDeath(r), c), r, Burying(rest), k)
  {
    TracksStep(s.db, Recover(j, None, WorkerDeath, s.now), k.job, k.fate, k.attempt, k.lease);
  }

  lemma LeaseMove(s: Sys, c: Config, r: Uuid, rows: seq<Sweep.ExpiredAttempt>, k: Case)
    requires At(s, r, Expiring(rows), k) && rows != []
    requires rows[0].job in s.db.jobs ==> JobOk(s.db, rows[0].job)
    ensures Enabled(s, RecoverLease(r), c) && Calm(s, Next(s, RecoverLease(r), c), k.job)
    ensures AtOrTelling(Next(s, RecoverLease(r), c), r, Expiring(rows[1..]), k)
    ensures rows[0] == Sweep.ExpiredAttempt(k.job, k.attempt) ==>
              Next(s, RecoverLease(r), c).db.jobs[k.job].status != Processing
  {
    var e := Recover(rows[0].job, Some(rows[0].attempt), LeaseExpired, s.now);
    TracksStep(s.db, e, k.job, k.fate, k.attempt, k.lease);
  }

  lemma TellMove(s: Sys, c: Config, r: Uuid, next: ReaperPc, k: Case)
    requires AtOrTelling(s, r, next, k) && s.reapers[r] != next
    ensures Enabled(s, TellRecovery(r), c) && Next(s, TellRecovery(r), c).db == s.db
    ensures At(Next(s, TellRecovery(r), c), r, next, k) && Calm(s, Next(s, TellRecovery(r), c), k.job)
  {
  }

  lemma JobOkNow(t: Journey, c: Config, j: Uuid)
    requires IsJourney(t, c)
    ensures j in Reached(t, c).db.jobs ==> JobOk(Reached(t, c).db, j)
  {
    SystemRunsTransactions(t.trace, t.steps, c, |t.steps|);
  }

  lemma Tell(t: Journey, c: Config, r: Uuid, next: ReaperPc, k: Case) returns (t': Journey)
    requires IsJourney(t, c) && AtOrTelling(Reached(t, c), r, next, k)
    ensures IsJourney(t', c) && Continues(t, t')
    ensures At(Reached(t', c), r, next, k) && Calm(Reached(t, c), Reached(t', c), k.job)
    ensures Reached(t', c).db == Reached(t, c).db
  {
    t' := t;
    if Reached(t, c).reapers[r] != next {
      TellMove(Reached(t, c), c, r, next, k);
      t' := Go(t, TellRecovery(r), c);
    }
  }

  lemma RecoverOne(t: Journey, c: Config, r: Uuid, w: Uuid, j: Uuid, rest: seq<Sweep.DeadWorker>, k: Case)
    returns (t': Journey)
    requires IsJourney(t, c) && At(Reached(t, c), r, Recovering(w, j, rest), k)
    ensures IsJourney(t', c) && Continues(t, t')
    ensures At(Reached(t', c), r, Burying(rest), k) && Calm(Reached(t, c), Reached(t', c), k.job)
  {
    JobOkNow(t, c, j);
    DeathMove(Reached(t, c), c, r, w, j, rest, k);
    var t1 := Go(t, RecoverDeath(r), c);
    t' := Tell(t1, c, r, Burying(rest), k);
    ContinuesTransitive(t, t1, t');
  }

  lemma BuryOne(t: Journey, c: Config, r: Uuid, rows: seq<Sweep.DeadWorker>, k: Case) returns (t': Journey)
    requires IsJourney(t, c) && At(Reached(t, c), r, Burying(rows), k) && rows != []
    ensures IsJourney(t', c) && Continues(t, t')
    ensures At(Reached(t', c), r, Burying(rows[1..]), k) && Calm(Reached(t, c), Reached(t', c), k.job)
  {
    BurialMove(Reached(t, c), c, r, rows, k);
    t' := Go(t, BuryWorker(r), c);
    if rows[0].currentJob.Some? {
      var t1 := t';
      t' := RecoverOne(t1, c, r, rows[0].id, rows[0].currentJob.value, rows[1..], k);
      ContinuesTransitive(t, t1, t');
    }
  }

  lemma {:induction false} BuryAll(t: Journey, c: Config, r: Uuid, rows: seq<Sweep.DeadWorker>, k: Case)
    returns (t': Journey)
    requires IsJourney(t, c) && At(Reached(t, c), r, Burying(rows), k)
    ensures IsJourney(t', c) && Continues(t, t')
    ensures At(Reached(t', c), r, Burying([]), k) && Calm(Reached(t, c), Reached(t', c), k.job)
    decreases |rows|
  {
    t' := t;
    if rows != [] {
      var t1 := BuryOne(t, c, r, rows, k);
      t' := BuryAll(t1, c, r, rows[1..], k);
      ContinuesTransitive(t, t1, t');
    }
  }

  lemma ExpireOne(t: Journey, c: Config, r: Uuid, rows: seq<Sweep.ExpiredAttempt>, k: Case) returns (t': Journey)
    requires IsJourney(t, c) && At(Reached(t, c), r, Expiring(rows), k) && rows != []
    ensures IsJourney(t', c) && Continues(t, t')
    ensures At(Reached(t', c), r, Expiring(rows[1..]), k) && Calm(Reached(t, c), Reached(t', c), k.job)
    ensures rows[0] == Sweep.ExpiredAttempt(k.job, k.attempt) ==>
              Reached(t', c).db.jobs[k.job].status != Processing
  {
    JobOkNow(t, c, rows[0].job);
    LeaseMove(Reached(t, c), c, r, rows, k);
    var t1 := Go(t, RecoverLease(r), c);
    t' := Tell(t1, c, r, Expiring(rows[1..]), k);
    ContinuesTransitive(t, t1, t');
  }

  lemma {:induction false} ExpireAll(t: Journey, c: Config, r: Uuid, rows: seq<Sweep.ExpiredAttempt>, k: Case)
    returns (t': Journey)
    requires IsJourney(t, c) && At(Reached(t, c), r, Expiring(rows), k)
    ensures IsJourney(t', c) && Continues(t, t')
    ensures At(Reached(t', c), r, Expiring([]), k) && Calm(Reached(t, c), Reached(t', c), k.job)
    ensures Sweep.ExpiredAttempt(k.job, k.attempt) in rows ==> Reached(t', c).db.jobs[k.job].status != Processing
    decreases |rows|
  {
    t' := t;
    if rows != [] {
      var t1 := ExpireOne(t, c, r, rows, k);
      t' := ExpireAll(t1, c, r, rows[1..], k);
      ContinuesTransitive(t, t1, t');
      assert rows == [rows[0]] + rows[1..];
    }
  }

  // ---------- reconciliation ----------

  /** Tables, workers and clock stand still, and nobody leaves the queue. */
  ghost predicate Refills(s: Sys, s': Sys) {
    s'.db == s.db && s'.workers == s.workers && s'.now == s.now && s.queue.members <= s'.queue.members
  }

  predicate Enqueueable(db: Db, j: Uuid) {
    j in db.jobs && ValidPriority(db.jobs[j].priority)
  }

  lemma CheckMove(s: Sys, c: Config, r: Uuid, rows: seq<Uuid>)
    requires r in s.reapers && s.reapers[r] == Checking(rows) && rows != []
    ensures Enabled(s, CheckEntry(r), c)
    ensures var s' := Next(s, CheckEntry(r), c);
            && Refills(s, s') && r in s'.reapers
            && s'.reapers[r] == if rows[0] in s.queue.members then Checking(rows[1..])
                                else Restoring(rows[0], rows[1..])
  {
  }

  lemma RestoreMove(s: Sys, c: Config, r: Uuid, j: Uuid, later: seq<Uuid>)
    requires r in s.reapers && s.reapers[r] == Restoring(j, later)
    ensures Enabled(s, RestoreEntry(r), c)
    ensures var s' := Next(s, RestoreEntry(r), c);
            && Refills(s, s') && r in s'.reapers && s'.reapers[r] == Checking(later)
            && (Enqueueable(s.db, j) ==> j in s'.queue.members)
  {
  }

  lemma CheckOne(t: Journey, c: Config, r: Uuid, rows: seq<Uuid>) returns (t': Journey)
    requires IsJourney(t, c) && rows != []
    requires r in Reached(t, c).reapers && Reached(t, c).reapers[r] == Checking(rows)
    ensures IsJourney(t', c) && Continues(t, t') && Refills(Reached(t, c), Reached(t', c))
    ensures r in Reached(t', c).reapers && Reached(t', c).reapers[r] == Checking(rows[1..])
    ensures Enqueueable(Reached(t, c).db, rows[0]) ==> rows[0] in Reached(t', c).queue.members
  {
    CheckMove(Reached(t, c), c, r, rows);
    t' := Go(t, CheckEntry(r), c);
    if rows[0] !in Reached(t, c).queue.members {
      RestoreMove(Reached(t', c), c, r, rows[0], rows[1..]);
      var t1 := t';
      t' := Go(t1, RestoreEntry(r), c);
      ContinuesTransitive(t, t1, t');
    }
  }

  lemma {:induction false} CheckAll(t: Journey, c: Config, r: Uuid, rows: seq<Uuid>, j: Uuid) returns (t': Journey)
    requires IsJourney(t, c) && r in Reached(t, c).reapers && Reached(t, c).reapers[r] == Checking(rows)
    ensures IsJourney(t', c) && Continues(t, t') && Refills(Reached(t, c), Reached(t', c))
    ensures r in Reached(t', c).reapers && Reached(t', c).reapers[r] == Checking([])
    ensures j in rows && Enqueueable(Reached(t, c).db, j) ==> j in Reached(t', c).queue.members
    decreases |rows|
  {
    t' := t;
    if rows != [] {
      var t1 := CheckOne(t, c, r, rows);
      t' := CheckAll(t1, c, r, rows[1..], j);
      ContinuesTransitive(t, t1, t');
      assert rows == [rows[0]] + rows[1..];
    }
  }

  // ---------- the sweep ----------

  lemma DeathScan(t: Journey, c: Config, r: Uuid, k: Case) returns (t': Journey, rows: seq<Sweep.DeadWorker>)
    requires IsJourney(t, c) && At(Reached(t, c), r, Resting, k)
    ensures IsJourney(t', c) && Continues(t, t')
    ensures At(Reached(t', c), r, Burying(rows), k) && Calm(Reached(t, c), Reached(t', c), k.job)
  {
    var s := Reached(t, c);
    rows := Listing(set w | w in s.db.workers && Sweep.IsStaleWorker(s.db, w, c.sweep, s.now)
                        :: Sweep.DeadWorker(w, s.db.workers[w].currentJob));
    t' := Go(t, ScanWorkers(r, rows), c);
  }

  lemma LeaseScan(t: Journey, c: Config, r: Uuid, k: Case) returns (t': Journey, rows: seq<Sweep.ExpiredAttempt>)
    requires IsJourney(t, c) && At(Reached(t, c), r, Burying([]), k)
    requires k.lease < Reached(t, c).now - c.sweep.leaseExpiryGrace
    ensures IsJourney(t', c) && Continues(t, t')
    ensures At(Reached(t', c), r, Expiring(rows), k) && Calm(Reached(t, c), Reached(t', c), k.job)
    ensures Reached(t', c).db == Reached(t, c).db
    ensures Reached(t, c).db.jobs[k.job].status == Processing ==> Sweep.ExpiredAttempt(k.job, k.attempt) in rows
  {
    var s := Reached(t, c);
    rows := Listing(set a | a in s.db.attempts && Sweep.IsExpired(s.db, a, c.sweep, s.now)
                        :: Sweep.ExpiredAttempt(s.db.attempts[a].job, a));
    if s.db.jobs[k.job].status == Processing {
      assert Sweep.IsExpired(s.db, k.attempt, c.sweep, s.now);
      assert Sweep.ExpiredAttempt(k.job, k.attempt) in Elements(rows);
    }
    t' := Go(t, ScanLeases(r, rows), c);
  }

  lemma QueueScan(t: Journey, c: Config, r: Uuid, j: Uuid) returns (t': Journey, rows: seq<Uuid>)
    requires IsJourney(t, c) && r in Reached(t, c).reapers && Reached(t, c).reapers[r] == Expiring([])
    ensures IsJourney(t', c) && Continues(t, t') && Refills(Reached(t, c), Reached(t', c))
    ensures r in Reached(t', c).reapers && Reached(t', c).reapers[r] == Checking(rows)
    ensures Sweep.IsStaleQueued(Reached(t, c).db, j, c.sweep, Reached(t, c).now) ==> j in rows
  {
    var s := Reached(t, c);
    rows := Listing(set i | i in s.db.jobs && Sweep.IsStaleQueued(s.db, i, c.sweep, s.now));
    assert j in Elements(rows) <==> j in rows;
    t' := Go(t, ScanQueue(r, rows), c);
  }

  /** The clock runs on until it is past `deadline`. */
  lemma Wait(t: Journey, c: Config, deadline: int) returns (t': Journey)
    requires IsJourney(t, c)
    ensures IsJourney(t', c) && Continues(t, t') && Reached(t', c).now > deadline
    ensures Reached(t', c) == Reached(t, c).(now := Reached(t', c).now)
  {
    var now := Reached(t, c).now;
    t' := Go(t, TimePasses(if deadline < now then 0 else deadline + 1 - now), c);
  }

  lemma StartSweep(t: Journey, c: Config, r: Uuid, k: Case) returns (t': Journey)
    requires IsJourney(t, c) && r !in Reached(t, c).reapers
    requires Tracks(Reached(t, c).db, k.job, k.fate, k.attempt, k.lease)
    ensures IsJourney(t', c) && Continues(t, t')
    ensures At(Reached(t', c), r, Resting, k)
    ensures Reached(t', c).db == Reached(t, c).db && Reached(t', c).workers == Reached(t, c).workers
    ensures Reached(t', c).now > k.lease + c.sweep.leaseExpiryGrace
  {
    var t1 := Go(t, StartReaper(r), c);
    t' := Wait(t1, c, k.lease + c.sweep.leaseExpiryGrace);
    ContinuesTransitive(t, t1, t');
  }

  /** The death pass and the lease pass: afterwards the job is not being processed. */
  lemma RecoverAlone(t: Journey, c: Config, r: Uuid, k: Case) returns (t': Journey)
    requires IsJourney(t, c) && At(Reached(t, c), r, Resting, k)
    requires Reached(t, c).now > k.lease + c.sweep.leaseExpiryGrace
    ensures IsJourney(t', c) && Continues(t, t')
    ensures At(Reached(t', c), r, Expiring([]), k) && Calm(Reached(t, c), Reached(t', c), k.job)
    ensures Reached(t', c).db.jobs[k.job].status != Processing
  {
    var t1, dead := DeathScan(t, c, r, k);
    var t2 := BuryAll(t1, c, r, dead, k);
    ContinuesTransitive(t, t1, t2);
    var t3, expired := LeaseScan(t2, c, r, k);
    ContinuesTransitive(t, t2, t3);
    t' := ExpireAll(t3, c, r, expired, k);
    ContinuesTransitive(t, t3, t');
  }

  lemma PriorityNow(t: Journey, c: Config, j: Uuid)
    requires IsJourney(t, c) && j in Reached(t, c).db.jobs
    ensures Enqueueable(Reached(t, c).db, j)
  {
    Stranding.AlwaysSysOk(t.trace, t.steps, c, |t.steps|);
  }

  /** The reconciliation pass: afterwards the job, if it is queued, is a member of the queue. */
  lemma ReconcileAlone(t: Journey, c: Config, r: Uuid, j: Uuid) returns (t': Journey)
    requires IsJourney(t, c) && r in Reached(t, c).reapers && Reached(t, c).reapers[r] == Expiring([])
    requires j in Reached(t, c).db.jobs
    ensures IsJourney(t', c) && Continues(t, t')
    ensures Reached(t', c).db == Reached(t, c).db && Reached(t', c).workers == Reached(t, c).workers
    ensures Reached(t, c).db.jobs[j].status == Queued ==> j in Reached(t', c).queue.members
    ensures r in Reached(t', c).reapers && Reached(t', c).reapers[r] == Resting
  {
    var t1 := Wait(t, c, Reached(t, c).db.jobs[j].updatedAt + c.sweep.staleQueueThreshold);
    var t2, rows := QueueScan(t1, c, r, j);
    ContinuesTransitive(t, t1, t2);
    PriorityNow(t2, c, j);
    var t3 := CheckAll(t2, c, r, rows, j);
    ContinuesTransitive(t, t2, t3);
    t' := Go(t3, EndSweep(r), c);
    ContinuesTransitive(t, t3, t');
  }

  lemma CaseOf(t: Journey, c: Config, j: Uuid) returns (k: Case)
    requires IsJourney(t, c) && j in Reached(t, c).db.jobs
    ensures k.job == j && k.fate == Fate(Reached(t, c).db.jobs[j])
    ensures Tracks(Reached(t, c).db, k.job, k.fate, k.attempt, k.lease)
  {
    var db := Reached(t, c).db;
    JobOkNow(t, c, j);
    if db.jobs[j].status == Processing {
      var a := db.jobs[j].current.value;
      k := Case(j, Fate(db.jobs[j]), a, db.attempts[a].leaseExpiresAt);
    } else {
      k := Case(j, Fate(db.jobs[j]), 0, 0);
    }
  }

  /**
   One sweep of a new reaper, everybody else standing still: the job is then completed, dead, or
   queued and in the queue, and it is still heading where it was heading.
   */
  lemma SweepAlone(t: Journey, c: Config, j: Uuid) returns (t': Journey)
    requires IsJourney(t, c) && j in Reached(t, c).db.jobs
    ensures IsJourney(t', c) && Continues(t, t')
    ensures Reached(t', c).workers == Reached(t, c).workers
    ensures j in Reached(t', c).db.jobs && Reached(t', c).db.jobs[j].status != Processing
    ensures Fate(Reached(t', c).db.jobs[j]) == Fate(Reached(t, c).db.jobs[j])
    ensures Reached(t', c).db.jobs[j].status == Queued ==> j in Reached(t', c).queue.members
  {
    var r := Above(Reached(t, c).reapers.Keys);
    var k := CaseOf(t, c, j);
    var t1 := StartSweep(t, c, r, k);
    var t2 := RecoverAlone(t1, c, r, k);
    ContinuesTransitive(t, t1, t2);
    t' := ReconcileAlone(t2, c, r, j);
    ContinuesTransitive(t, t2, t');
  }

  // ---------- one worker, with everybody else standing still ----------

  predicate WorkerAt(s: Sys, w: Uuid, pc: WorkerPc) {
    w in s.workers && s.workers[w] == pc && w in s.db.workers
  }

  /** The queue stands still, and so do all jobs but `k`. */
  ghost predicate Spares(s: Sys, s': Sys, k: Uuid) {
    s'.queue == s.queue && forall i :: i in s.db.jobs && i != k ==> i in s'.db.jobs && s'.db.jobs[i] == s.db.jobs[i]
  }

  /** The next job is popped; it was in the queue, and it alone leaves. */
  lemma PopNext(t: Journey, c: Config, w: Uuid) returns (t': Journey, k: Uuid)
    requires IsJourney(t, c) && WorkerAt(Reached(t, c), w, Polling) && Reached(t, c).queue.members != {}
    ensures IsJourney(t', c) && Continues(t, t')
    ensures WorkerAt(Reached(t', c), w, Popped(k)) && Reached(t', c).db == Reached(t, c).db
    ensures k in Reached(t, c).queue.members
    ensures Reached(t', c).queue.members == Reached(t, c).queue.members - {k}
  {
    k := PopTakes(t, c);
    t' := Go(t, PopJob(w), c);
  }

  lemma PopTakes(t: Journey, c: Config) returns (k: Uuid)
    requires IsJourney(t, c) && Reached(t, c).queue.members != {}
    ensures PopResult(Reached(t, c).queue) == Some(k) && k in Reached(t, c).queue.members
    ensures PopScript(Reached(t, c).queue).members == Reached(t, c).queue.members - {k}
  {
    var q := Reached(t, c).queue;
    var waiting := Ordering.QueueAlwaysOrdered(t.trace, t.steps, c, |t.steps|);
    var x := SomeElement(q.members);
    assert HasId(waiting, x);
    k := waiting[Front(waiting)].id;
    assert HasId(waiting, k);
  }

  lemma ClaimNow(t: Journey, c: Config, w: Uuid, k: Uuid, a: Uuid)
    requires IsJourney(t, c) && a !in Reached(t, c).db.attempts && w in Reached(t, c).db.workers
    ensures var db := Reached(t, c).db;
            && (ClaimTakes(db, k, a, w) <==> Stranding.IsQueued(db, k))
            && (ClaimTakes(db, k, a, w) ==>
                  IsCurrent(ClaimTx(db, k, a, w, c.leaseTtl, Reached(t, c).now), k, a))
  {
    SystemRunsTransactions(t.trace, t.steps, c, |t.steps|);
    ClaimAlwaysTakesEffect(Reached(t, c).db, k, a, w, c.leaseTtl, Reached(t, c).now);
  }

  /** A queued job is claimed under a new attempt; anything else is dropped. */
  lemma ClaimNext(t: Journey, c: Config, w: Uuid, k: Uuid) returns (t': Journey, a: Uuid)
    requires IsJourney(t, c) && WorkerAt(Reached(t, c), w, Popped(k))
    ensures IsJourney(t', c) && Continues(t, t') && Spares(Reached(t, c), Reached(t', c), k)
    ensures if Stranding.IsQueued(Reached(t, c).db, k)
            then && WorkerAt(Reached(t', c), w, Working(k, a, [], {}))
                 && CompleteTakes(Reached(t', c).db, k, a)
            else WorkerAt(Reached(t', c), w, Polling) && Reached(t', c).db == Reached(t, c).db
  {
    var s := Reached(t, c);
    a := Above(s.db.attempts.Keys);
    ClaimNow(t, c, w, k, a);
    t' := Go(t, ClaimJob(w, a), c);
    assert Reached(t', c).db == ClaimTx(s.db, k, a, w, c.leaseTtl, s.now);
  }

  /** FFmpeg can succeed for every task. */
  lemma SomeGeneration(c: Config, j: Uuid) returns (outcomes: seq<Outputs.Outcome>, contents: seq<string>)
    ensures Generates(c, j, outcomes, contents)
  {
    outcomes := [Outputs.Done(0), Outputs.Done(0), Outputs.Done(0), Outputs.Done(0)];
    contents := ["", "", "", ""];
    Outputs.InOrderMeaning(Outputs.TASKS, outcomes, c.tempDir + "/" + ObjectKeys.Text(j));
  }

  lemma Produce(t: Journey, c: Config, w: Uuid, k: Uuid, a: Uuid) returns (t': Journey, files: seq<File>)
    requires IsJourney(t, c) && WorkerAt(Reached(t, c), w, Working(k, a, [], {}))
    ensures IsJourney(t', c) && Continues(t, t')
    ensures WorkerAt(Reached(t', c), w, Working(k, a, files, {})) && FullSet(files)
    ensures Reached(t', c).db == Reached(t, c).db && Reached(t', c).queue == Reached(t, c).queue
  {
    var outcomes, contents := SomeGeneration(c, k);
    GenerationIsFullSet(c, k, outcomes, contents);
    files := FilesOf(Generation(c, k, outcomes).outputs, contents);
    t' := Go(t, Transcode(w, outcomes, contents), c);
  }

  /** The files from number `i` on are uploaded, one by one. */
  lemma {:induction false} UploadFrom(t: Journey, c: Config, w: Uuid, pc: WorkerPc, i: nat)
    returns (t': Journey, pc': WorkerPc)
    requires IsJourney(t, c) && pc.Working? && WorkerAt(Reached(t, c), w, pc)
    requires i <= |pc.files| && forall n :: 0 <= n < i ==> n in pc.uploaded
    ensures IsJourney(t', c) && Continues(t, t')
    ensures pc'.Working? && pc'.job == pc.job && pc'.attempt == pc.attempt && pc'.files == pc.files && AllUploaded(pc')
    ensures WorkerAt(Reached(t', c), w, pc')
    ensures Reached(t', c).db == Reached(t, c).db && Reached(t', c).queue == Reached(t, c).queue
    decreases |pc.files| - i
  {
    t', pc' := t, pc;
    if i < |pc.files| {
      var t1 := Go(t, Upload(w, i), c);
      t', pc' := UploadFrom(t1, c, w, pc.(uploaded := pc.uploaded + {i}), i + 1);
      ContinuesTransitive(t, t1, t');
    }
  }

  lemma CompletionMove(s: Sys, c: Config, w: Uuid, pc: WorkerPc)
    requires pc.Working? && WorkerAt(s, w, pc) && pc.files != [] && AllUploaded(pc)
    requires CompleteTakes(s.db, pc.job, pc.attempt)
    ensures Enabled(s, CompleteJob(w), c)
    ensures var s' := Next(s, CompleteJob(w), c);
            Spares(s, s', pc.job) && WorkerAt(s', w, Finishing) && Lifecycle.IsCompleted(s'.db, pc.job)
  {
    assert NextDb(s, CompleteJob(w), c) == CompleteTx(s.db, pc.job, pc.attempt, RowsOf(c, pc), s.now);
  }

  lemma RestMove(s: Sys, c: Config, w: Uuid)
    requires WorkerAt(s, w, Finishing)
    ensures Enabled(s, GoIdle(w), c)
    ensures var s' := Next(s, GoIdle(w), c);
            s'.db.jobs == s.db.jobs && s'.queue == s.queue && WorkerAt(s', w, Polling)
  {
  }

  lemma CompleteAndRest(t: Journey, c: Config, w: Uuid, pc: WorkerPc) returns (t': Journey)
    requires IsJourney(t, c) && pc.Working? && WorkerAt(Reached(t, c), w, pc)
    requires pc.files != [] && AllUploaded(pc) && CompleteTakes(Reached(t, c).db, pc.job, pc.attempt)
    ensures IsJourney(t', c) && Continues(t, t') && Spares(Reached(t, c), Reached(t', c), pc.job)
    ensures WorkerAt(Reached(t', c), w, Polling)
    ensures Lifecycle.IsCompleted(Reached(t', c).db, pc.job)
  {
    CompletionMove(Reached(t, c), c, w, pc);
    var t1 := Go(t, CompleteJob(w), c);
    RestMove(Reached(t1, c), c, w);
    t' := Go(t1, GoIdle(w), c);
    ContinuesTransitive(t, t1, t');
  }

  /** A popped job is completed, if it is queued, and the worker is ready for the next one. */
  lemma WorkOn(t: Journey, c: Config, w: Uuid, k: Uuid) returns (t': Journey)
    requires IsJourney(t, c) && WorkerAt(Reached(t, c), w, Popped(k))
    ensures IsJourney(t', c) && Continues(t, t') && Spares(Reached(t, c), Reached(t', c), k)
    ensures WorkerAt(Reached(t', c), w, Polling)
    ensures Stranding.IsQueued(Reached(t, c).db, k) ==> Lifecycle.IsCompleted(Reached(t', c).db, k)
  {
    var t1, a := ClaimNext(t, c, w, k);
    t' := t1;
    if Stranding.IsQueued(Reached(t, c).db, k) {
      var t2, files := Produce(t1, c, w, k, a);
      ContinuesTransitive(t, t1, t2);
      var t3, pc := UploadFrom(t2, c, w, Working(k, a, files, {}), 0);
      ContinuesTransitive(t, t2, t3);
      t' := CompleteAndRest(t3, c, w, pc);
      ContinuesTransitive(t, t3, t');
    }
  }

  /** One worker gets to any queued member of the queue, completing what comes before it. */
  lemma {:induction false} DrainTo(t: Journey, c: Config, w: Uuid, j: Uuid) returns (t': Journey)
    requires IsJourney(t, c) && WorkerAt(Reached(t, c), w, Polling)
    requires Stranding.IsQueued(Reached(t, c).db, j) && j in Reached(t, c).queue.members
    ensures IsJourney(t', c) && Continues(t, t') && Lifecycle.IsCompleted(Reached(t', c).db, j)
    decreases |Reached(t, c).queue.members|
  {
    var t1, k := PopNext(t, c, w);
    var t2 := WorkOn(t1, c, w, k);
    ContinuesTransitive(t, t1, t2);
    t' := t2;
    if k != j {
      t' := DrainTo(t2, c, w, j);
      ContinuesTransitive(t, t2, t');
    }
  }

  /**
   From every state of every run, whatever faults it contains: every job can be brought to its
   end, without a further fault, by one sweep of a new reaper and the work of a new worker. It is
   completed, unless it is dead already or is being processed with no retry left.
   */
  lemma EveryJobCanEnd(trace: seq<Sys>, steps: seq<Step>, c: Config, j: Uuid)
    returns (trace': seq<Sys>, steps': seq<Step>)
    requires IsRun(trace, steps, c) && j in trace[|steps|].db.jobs
    ensures IsRun(trace', steps', c) && trace <= trace' && steps <= steps'
    ensures forall i :: |steps| <= i < |steps'| ==> !IsFault(steps'[i])
    ensures j in trace'[|steps'|].db.jobs
    ensures var job, job' := trace[|steps|].db.jobs[j], trace'[|steps'|].db.jobs[j];
            job'.status == if job.status == Dead || (job.status == Processing && !RetriesLeft(job)) then Dead
                           else Completed
  {
    var t := Journey(trace, steps);
    var t1 := SweepAlone(t, c, j);
    var t' := t1;
    if Reached(t1, c).db.jobs[j].status == Queued {
      var w := Above(Reached(t1, c).workers.Keys);
      var t2 := Go(t1, StartWorker(w), c);
      ContinuesTransitive(t, t1, t2);
      t' := DrainTo(t2, c, w, j);
      ContinuesTransitive(t, t2, t');
    }
    trace', steps' := t'.trace, t'.steps;
  }

  // ---------- staying alive ----------

  lemma RenewMove(s: Sys, c: Config, w: Uuid)
    requires IsWorking(s, w) && RenewTakes(s.db, s.workers[w].attempt)
    ensures Enabled(s, RenewLease(w), c)
    ensures var s' := Next(s, RenewLease(w), c);
            && s'.workers == s.workers && s'.now == s.now && s'.db.jobs == s.db.jobs && s'.db.workers == s.db.workers
            && s.workers[w].attempt in s'.db.attempts
            && s'.db.attempts[s.workers[w].attempt].leaseExpiresAt == s.now + c.leaseTtl
  {
  }

  lemma BeatMove(s: Sys, c: Config, w: Uuid)
    requires w in s.workers && w in s.db.workers
    ensures Enabled(s, Beat(w), c)
    ensures var s' := Next(s, Beat(w), c);
            && s'.workers == s.workers && s'.now == s.now && s'.db.jobs == s.db.jobs && s'.db.attempts == s.db.attempts
            && w in s'.db.workers && s'.db.workers[w].lastHeartbeat == s.now
  {
  }

  lemma WorkerNow(t: Journey, c: Config, w: Uuid)
    requires IsJourney(t, c) && IsWorking(Reached(t, c), w)
    requires IsCurrent(Reached(t, c).db, Reached(t, c).workers[w].job, Reached(t, c).workers[w].attempt)
    ensures w in Reached(t, c).db.workers && RenewTakes(Reached(t, c).db, Reached(t, c).workers[w].attempt)
  {
    Stranding.AlwaysSysOk(t.trace, t.steps, c, |t.steps|);
    assert JobOk(Reached(t, c).db, Reached(t, c).workers[w].job);
  }

  /**
   A worker on the current attempt of its job can at any moment keep itself safe: one renewal and
   one heartbeat, and neither its attempt nor its row is what a scan looks for, until more than
   the TTL and the grace, or the threshold, have gone by.
   */
  lemma CanStaySafe(t: Journey, c: Config, w: Uuid) returns (t': Journey)
    requires IsJourney(t, c) && IsWorking(Reached(t, c), w)
    requires IsCurrent(Reached(t, c).db, Reached(t, c).workers[w].job, Reached(t, c).workers[w].attempt)
    ensures IsJourney(t', c) && Continues(t, t') && t'.steps == t.steps + [RenewLease(w), Beat(w)]
    ensures Reached(t', c).workers == Reached(t, c).workers && Reached(t', c).db.jobs == Reached(t, c).db.jobs
    ensures forall now :: now <= Reached(t, c).now + c.leaseTtl + c.sweep.leaseExpiryGrace ==>
              !Sweep.IsExpired(Reached(t', c).db, Reached(t, c).workers[w].attempt, c.sweep, now)
    ensures forall now :: now <= Reached(t, c).now + c.sweep.deadWorkerThreshold ==>
              !Sweep.IsStaleWorker(Reached(t', c).db, w, c.sweep, now)
  {
    WorkerNow(t, c, w);
    RenewMove(Reached(t, c), c, w);
    var t1 := Go(t, RenewLease(w), c);
    BeatMove(Reached(t1, c), c, w);
    t' := Go(t1, Beat(w), c);
    ContinuesTransitive(t, t1, t');
  }

  lemma NoteMoves(s: Sys, c: Config, w: Uuid, p: Phase, f: DurationField, ms: nat)
    requires IsWorking(s, w) && s.workers[w].attempt in s.db.attempts
    ensures Enabled(s, EnterPhase(w, p), c) && Enabled(s, NoteDuration(w, f, ms), c)
    ensures var a, s' := s.workers[w].attempt, Next(s, EnterPhase(w, p), c);
            && s'.workers == s.workers && a in s'.db.attempts
            && s'.db.attempts[a].phase == (if s.db.attempts[a].status == Running then p else s.db.attempts[a].phase)
    ensures var a, s' := s.workers[w].attempt, Next(s, NoteDuration(w, f, ms), c);
            && s'.workers == s.workers && a in s'.db.attempts && s'.db.attempts[a].phase == s.db.attempts[a].phase
            && f in s'.db.attempts[a].durations && s'.db.attempts[a].durations[f] == ms
  {
  }

  lemma AttemptNow(t: Journey, c: Config, w: Uuid)
    requires IsJourney(t, c) && IsWorking(Reached(t, c), w)
    ensures Reached(t, c).workers[w].attempt in Reached(t, c).db.attempts
  {
    Publishing.RowsNameObjects(t.trace, t.steps, c, |t.steps|);
    assert Publishing.WorkOk(Reached(t, c), c, w);
  }

  /** A worker can at any moment note its phase, while its attempt runs, and a duration, even after that. */
  lemma CanNote(t: Journey, c: Config, w: Uuid, p: Phase, f: DurationField, ms: nat) returns (t': Journey)
    requires IsJourney(t, c) && IsWorking(Reached(t, c), w)
    ensures IsJourney(t', c) && Continues(t, t') && t'.steps == t.steps + [EnterPhase(w, p), NoteDuration(w, f, ms)]
    ensures var a := Reached(t, c).workers[w].attempt;
            && a in Reached(t, c).db.attempts && a in Reached(t', c).db.attempts
            && (Reached(t, c).db.attempts[a].status == Running ==> Reached(t', c).db.attempts[a].phase == p)
            && f in Reached(t', c).db.attempts[a].durations && Reached(t', c).db.attempts[a].durations[f] == ms
  {
    AttemptNow(t, c, w);
    NoteMoves(Reached(t, c), c, w, p, f, ms);
    var t1 := Go(t, EnterPhase(w, p), c);
    NoteMoves(Reached(t1, c), c, w, p, f, ms);
    t' := Go(t1, NoteDuration(w, f, ms), c);
    ContinuesTransitive(t, t1, t');
  }

  /**
   Failed idle updates have to be excluded from `RestingWorkerIsSafe`: from every state in which a
   worker has finished but still shows busy, one such failure and some silence lead to a worker
   between two jobs that is taken for dead.
   */
  lemma UnreportedRestIsScanned(t: Journey, c: Config, w: Uuid) returns (t': Journey)
    requires IsJourney(t, c) && WorkerAt(Reached(t, c), w, Finishing) && Reached(t, c).db.workers[w].status == Busy
    ensures IsJourney(t', c) && t.trace <= t'.trace && t.steps + [SkipIdle(w)] <= t'.steps
    ensures Scans.BetweenJobs(Reached(t', c), w)
    ensures Sweep.IsStaleWorker(Reached(t', c).db, w, c.sweep, Reached(t', c).now)
  {
    WorkersCanFail(Reached(t, c), c, w);
    FaultsSpareTables(Reached(t, c), SkipIdle(w), c);
    var t1 := Add(t, SkipIdle(w), c);
    t' := Wait(t1, c, Reached(t, c).db.workers[w].lastHeartbeat + c.sweep.deadWorkerThreshold);
  }
}
