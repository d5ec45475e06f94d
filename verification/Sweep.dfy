/**
 One reaper sweep with the tables and the queue to itself: the three recovery passes as loops
 over scanned rows, what they compute, and why a second sweep has nothing left to do.
 */
module Sweep {
  import opened Common
  import opened Database
  import opened Invariant
  import opened PriorityQueue
  import Postgres

  /** Thresholds in seconds, as configured. */
  datatype Config = Config(deadWorkerThreshold: nat, leaseExpiryGrace: nat, staleQueueThreshold: nat)

  // ---------- what the three scans select ----------

  predicate IsStaleWorker(db: Db, w: Uuid, c: Config, now: int) {
    w in db.workers && db.workers[w].status == Busy && db.workers[w].lastHeartbeat < now - c.deadWorkerThreshold
  }

  predicate IsExpired(db: Db, a: Uuid, c: Config, now: int) {
    a in db.attempts && db.attempts[a].status == Running && db.attempts[a].leaseExpiresAt < now - c.leaseExpiryGrace
  }

  predicate IsStaleQueued(db: Db, j: Uuid, c: Config, now: int) {
    j in db.jobs && db.jobs[j].status == Queued && db.jobs[j].updatedAt < now - c.staleQueueThreshold
  }

  function StaleWorkers(db: Db, c: Config, now: int): set<Uuid> {
    set w | w in db.workers && IsStaleWorker(db, w, c, now)
  }

  /** The jobs that the given workers name as their current job. */
  function NamedJobs(db: Db, ws: set<Uuid>): set<Uuid> {
    set w | w in ws && w in db.workers && db.workers[w].currentJob.Some? :: db.workers[w].currentJob.value
  }

  function ExpiredJobs(db: Db, c: Config, now: int): set<Uuid> {
    set a | a in db.attempts && IsExpired(db, a, c, now) :: db.attempts[a].job
  }

  function StaleQueued(db: Db, c: Config, now: int): set<Uuid> {
    set j | j in db.jobs && IsStaleQueued(db, j, c, now)
  }

  // ---------- what the passes do, as functions of the tables alone ----------

  function LoseAll(workers: map<Uuid, WorkerRow>, ws: set<Uuid>): map<Uuid, WorkerRow> {
    map w | w in workers :: if w in ws then workers[w].(status := Lost, currentJob := None) else workers[w]
  }

  function RetireJobs(jobs: map<Uuid, Job>, js: set<Uuid>, now: int): map<Uuid, Job> {
    map j | j in jobs :: if j in js && jobs[j].status == Processing then Retire(jobs[j], now) else jobs[j]
  }

  function ExpireAttempts(attempts: map<Uuid, Attempt>, js: set<Uuid>, reason: FailureCategory, now: int)
    : map<Uuid, Attempt>
  {
    map a | a in attempts ::
      if attempts[a].job in js && attempts[a].status == Running
      then attempts[a].(status := Expired, finishedAt := Some(now), category := Some(reason))
      else attempts[a]
  }

  /** Every processing job of `js` loses its current attempt, once. */
  function RetireAll(db: Db, js: set<Uuid>, reason: FailureCategory, now: int): Db {
    db.(jobs := RetireJobs(db.jobs, js, now), attempts := ExpireAttempts(db.attempts, js, reason, now))
  }

  /** The jobs of `js` that a recovery puts back into the queue. */
  function Requeued(db: Db, js: set<Uuid>): set<Uuid> {
    set j | j in db.jobs && j in js && db.jobs[j].status == Processing && RetriesLeft(db.jobs[j])
  }

  function DeadPass(db: Db, c: Config, now: int): Db {
    var ws := StaleWorkers(db, c, now);
    RetireAll(db, NamedJobs(db, ws), WorkerDeath, now).(workers := LoseAll(db.workers, ws))
  }

  function LeasePass(db: Db, c: Config, now: int): Db {
    RetireAll(db, ExpiredJobs(db, c, now), LeaseExpired, now)
  }

  /** The tables after a sweep, whatever order the scans returned their rows in. */
  function SweepTables(db: Db, c: Config, now: int): Db {
    LeasePass(DeadPass(db, c, now), c, now)
  }

  /** The queue's membership set after a sweep. */
  function SweepMembers(db: Db, members: set<Uuid>, c: Config, now: int): set<Uuid> {
    members
    + Requeued(db, NamedJobs(db, StaleWorkers(db, c, now)))
    + Requeued(DeadPass(db, c, now), ExpiredJobs(DeadPass(db, c, now), c, now))
    + StaleQueued(SweepTables(db, c, now), c, now)
  }

  // ---------- what a sweep achieves ----------

  /** Nothing is left for a sweep to repair. */
  ghost predicate Swept(db: Db, members: set<Uuid>, c: Config, now: int) {
    && (forall w :: !IsStaleWorker(db, w, c, now))
    && (forall a :: !IsExpired(db, a, c, now))
    && (forall j :: IsStaleQueued(db, j, c, now) ==> j in members)
  }

  /** The jobs a sweep takes an attempt from: named by a stale worker, or past their lease. */
  ghost predicate SweepRetires(db: Db, j: Uuid, c: Config, now: int) {
    && j in db.jobs && db.jobs[j].status == Processing
    && (j in NamedJobs(db, StaleWorkers(db, c, now)) || j in ExpiredJobs(db, c, now))
  }

  /** Processing jobs and running attempts point at each other. */
  ghost predicate Linked(db: Db) {
    && (forall j :: j in db.jobs && db.jobs[j].status == Processing ==>
          && db.jobs[j].current.Some?
          && db.jobs[j].current.value in db.attempts
          && db.attempts[db.jobs[j].current.value].job == j
          && db.attempts[db.jobs[j].current.value].status == Running)
    && (forall a :: a in db.attempts && db.attempts[a].status == Running ==>
          && db.attempts[a].job in db.jobs
          && db.jobs[db.attempts[a].job].status == Processing
          && db.jobs[db.attempts[a].job].current == Some(a))
  }

  /** Every reachable database is linked. */
  lemma InvLinks(db: Db)
    requires Inv(db)
    ensures Linked(db)
  {
    forall j | j in db.jobs && db.jobs[j].status == Processing
      ensures var cur := db.jobs[j].current;
              && cur.Some? && cur.value in db.attempts
              && db.attempts[cur.value].job == j && db.attempts[cur.value].status == Running
    {
      assert JobOk(db, j);
    }
    forall a | a in db.attempts && db.attempts[a].status == Running
      ensures var j := db.attempts[a].job;
              j in db.jobs && db.jobs[j].status == Processing && db.jobs[j].current == Some(a)
    {
      assert AttemptOk(db, a);
    }
  }

  lemma RetireAllLinks(db: Db, js: set<Uuid>, reason: FailureCategory, now: int)
    requires Linked(db)
    ensures Linked(RetireAll(db, js, reason, now))
  {
  }

  lemma ExpiredAfterDeadPass(db: Db, c: Config, now: int, j: Uuid)
    ensures j in ExpiredJobs(DeadPass(db, c, now), c, now) <==>
              j in ExpiredJobs(db, c, now) && j !in NamedJobs(db, StaleWorkers(db, c, now))
  {
    var d := DeadPass(db, c, now);
    if j in ExpiredJobs(db, c, now) && j !in NamedJobs(db, StaleWorkers(db, c, now)) {
      var a :| a in db.attempts && IsExpired(db, a, c, now) && db.attempts[a].job == j;
      assert d.attempts[a] == db.attempts[a];
      assert IsExpired(d, a, c, now);
    }
    if j in ExpiredJobs(d, c, now) {
      var a :| a in d.attempts && IsExpired(d, a, c, now) && d.attempts[a].job == j;
      assert d.attempts[a] == db.attempts[a];
      assert IsExpired(db, a, c, now);
    }
  }

  /**
   A sweep charges each job at most one retry: exactly the processing jobs named by a stale
   worker or holding an expired lease are retired, once, however many dead workers name them;
   every other job row stays as it is.
   */
  lemma SweepChargesOnce(db: Db, c: Config, now: int, j: Uuid)
    requires j in db.jobs
    ensures j in SweepTables(db, c, now).jobs
    ensures SweepTables(db, c, now).jobs[j] ==
              if SweepRetires(db, j, c, now) then Retire(db.jobs[j], now) else db.jobs[j]
  {
    ExpiredAfterDeadPass(db, c, now, j);
  }

  /**
   After a sweep no busy worker is stale, no running attempt is past its lease and grace, and
   every stale queued job is in the queue.
   */
  lemma SweepSettles(db: Db, members: set<Uuid>, c: Config, now: int)
    ensures Swept(SweepTables(db, c, now), SweepMembers(db, members, c, now), c, now)
  {
    var d := DeadPass(db, c, now);
    var s := SweepTables(db, c, now);
    forall w ensures !IsStaleWorker(s, w, c, now) {
      if w in db.workers {
        assert w in StaleWorkers(db, c, now) <==> IsStaleWorker(db, w, c, now);
      }
    }
    forall a ensures !IsExpired(s, a, c, now) {
      if a in s.attempts && IsExpired(d, a, c, now) {
        assert d.attempts[a].job in ExpiredJobs(d, c, now);
      }
    }
  }

  lemma NothingToRetire(db: Db, reason: FailureCategory, now: int)
    ensures RetireAll(db, {}, reason, now) == db
  {
    assert RetireAll(db, {}, reason, now).jobs == db.jobs;
    assert RetireAll(db, {}, reason, now).attempts == db.attempts;
  }

  /** In a settled state a sweep changes neither the tables nor the queue. */
  lemma SweepIsFixpoint(db: Db, members: set<Uuid>, c: Config, now: int)
    requires Swept(db, members, c, now)
    ensures SweepTables(db, c, now) == db
    ensures SweepMembers(db, members, c, now) == members
  {
    assert StaleWorkers(db, c, now) == {};
    assert NamedJobs(db, {}) == {};
    assert LoseAll(db.workers, {}) == db.workers;
    NothingToRetire(db, WorkerDeath, now);
    assert DeadPass(db, c, now) == db;
    assert ExpiredJobs(db, c, now) == {};
    NothingToRetire(db, LeaseExpired, now);
    assert StaleQueued(db, c, now) <= members;
  }

  /** A second sweep at the same instant is a no-op. */
  lemma SecondSweepIsNoOp(db: Db, members: set<Uuid>, c: Config, now: int)
    ensures var s, m := SweepTables(db, c, now), SweepMembers(db, members, c, now);
            SweepTables(s, c, now) == s && SweepMembers(s, m, c, now) == m
  {
    SweepSettles(db, members, c, now);
    SweepIsFixpoint(SweepTables(db, c, now), SweepMembers(db, members, c, now), c, now);
  }

  // ---------- one recovery after another is one recovery of all ----------

  /** `expected` is either the empty attempt id or a running attempt of job `j`. */
  ghost predicate Names(db: Db, j: Uuid, expected: Option<Uuid>) {
    expected.Some? ==>
      && expected.value in db.attempts
      && db.attempts[expected.value].status == Running
      && db.attempts[expected.value].job == j
  }

  /** After the jobs of `js`, recovering `j` takes effect exactly if `j` is processing and new. */
  lemma RetireNextTakes(db: Db, js: set<Uuid>, j: Uuid, expected: Option<Uuid>, reason: FailureCategory, now: int)
    requires Linked(db) && Names(db, j, expected)
    ensures RecoverTakes(RetireAll(db, js, reason, now), j, expected) <==>
              j in db.jobs && j !in js && db.jobs[j].status == Processing
  {
  }

  lemma ExpireNext(db: Db, js: set<Uuid>, j: Uuid, reason: FailureCategory, now: int)
    requires Linked(db)
    ensures var before, after := ExpireAttempts(db.attempts, js, reason, now),
                                 ExpireAttempts(db.attempts, js + {j}, reason, now);
            if j in db.jobs && j !in js && db.jobs[j].status == Processing
            then after == EndAttempt(before, db.jobs[j].current.value, Expired, Some(reason), now)
            else after == before
  {
  }

  /** Recovering job `j` after the jobs of `js` recovers the jobs of `js + {j}`. */
  lemma RetireNext(db: Db, js: set<Uuid>, j: Uuid, expected: Option<Uuid>, reason: FailureCategory, now: int)
    requires Linked(db) && Names(db, j, expected)
    ensures RecoverTx(RetireAll(db, js, reason, now), j, expected, reason, now) == RetireAll(db, js + {j}, reason, now)
  {
    RetireNextTakes(db, js, j, expected, reason, now);
    ExpireNext(db, js, j, reason, now);
    var before, after := RetireJobs(db.jobs, js, now), RetireJobs(db.jobs, js + {j}, now);
    if j in db.jobs && j !in js && db.jobs[j].status == Processing {
      assert after == before[j := Retire(before[j], now)];
    } else {
      assert after == before;
    }
  }

  /** A pass is nothing but a run of recovery transactions, so it keeps all that those keep. */
  lemma {:induction false} RetireAllIsRun(db: Db, js: set<Uuid>, reason: FailureCategory, now: int)
    returns (es: seq<Event>)
    requires Linked(db)
    ensures Run(db, es) == RetireAll(db, js, reason, now)
    decreases |js|
  {
    if js == {} {
      es := [];
      NothingToRetire(db, reason, now);
    } else {
      var j := SomeElement(js);
      es := RetireAllIsRun(db, js - {j}, reason, now);
      RetireNext(db, js - {j}, j, None, reason, now);
      assert js - {j} + {j} == js;
      RunSnoc(db, es, Recover(j, None, reason, now));
      es := es + [Recover(j, None, reason, now)];
    }
  }

  lemma RetireAllKeepsInv(db: Db, js: set<Uuid>, reason: FailureCategory, now: int)
    requires Inv(db)
    ensures Inv(RetireAll(db, js, reason, now))
  {
    InvLinks(db);
    var es := RetireAllIsRun(db, js, reason, now);
    RunKeepsInv(db, es);
  }

  /** A sweep keeps the invariant of the reachable databases. */
  lemma SweepKeepsInv(db: Db, c: Config, now: int)
    requires Inv(db)
    ensures Inv(SweepTables(db, c, now))
  {
    var ws := StaleWorkers(db, c, now);
    var d := RetireAll(db, NamedJobs(db, ws), WorkerDeath, now);
    RetireAllKeepsInv(db, NamedJobs(db, ws), WorkerDeath, now);
    assert Cosmetic(d, DeadPass(db, c, now));
    CosmeticKeepsInv(d, DeadPass(db, c, now));
    RetireAllKeepsInv(DeadPass(db, c, now), ExpiredJobs(DeadPass(db, c, now), c, now), LeaseExpired, now);
  }

  lemma RetireKeepsWorkers(db: Db, ws: map<Uuid, WorkerRow>, j: Uuid, expected: Option<Uuid>,
                           reason: FailureCategory, now: int)
    ensures RecoverTx(db.(workers := ws), j, expected, reason, now)
            == RecoverTx(db, j, expected, reason, now).(workers := ws)
  {
  }

  ghost predicate AllValid(db: Db) {
    forall j :: j in db.jobs ==> ValidPriority(db.jobs[j].priority)
  }

  /** The queue grows by `more` (at most) and is untouched when that adds no member. */
  ghost predicate GrowsBy(q: Redis, q': Redis, more: set<Uuid>) {
    q'.members == q.members + more && (more <= q.members ==> q' == q)
  }

  /** Every new member has arrived behind the others in the tier of its stored priority. */
  ghost predicate ArrivesInTier(jobs: map<Uuid, Job>, q: Redis, q': Redis) {
    && (forall p :: Tier(q, p) <= Tier(q', p))
    && (forall j :: j in q'.members && j !in q.members ==> j in jobs && j in Tier(q', jobs[j].priority))
  }

  lemma EnqueueArrives(jobs: map<Uuid, Job>, q: Redis, j: Uuid)
    requires j in jobs
    ensures ArrivesInTier(jobs, q, Enqueue(q, j, jobs[j].priority))
  {
  }

  lemma ArrivalsCompose(jobs: map<Uuid, Job>, q0: Redis, q1: Redis, q2: Redis)
    requires ArrivesInTier(jobs, q0, q1) && ArrivesInTier(jobs, q1, q2)
    ensures ArrivesInTier(jobs, q0, q2)
  {
    forall p ensures Tier(q0, p) <= Tier(q2, p) {
      assert Tier(q0, p) <= Tier(q1, p) <= Tier(q2, p);
    }
    forall j | j in q2.members && j !in q0.members ensures j in jobs && j in Tier(q2, jobs[j].priority) {
      if j in q1.members {
        assert Tier(q1, jobs[j].priority) <= Tier(q2, jobs[j].priority);
      }
    }
  }

  lemma ArrivesNext(jobs: map<Uuid, Job>, q0: Redis, q: Redis, j: Uuid)
    requires ArrivesInTier(jobs, q0, q) && j in jobs
    ensures ArrivesInTier(jobs, q0, Enqueue(q, j, jobs[j].priority))
  {
    EnqueueArrives(jobs, q, j);
    ArrivalsCompose(jobs, q0, q, Enqueue(q, j, jobs[j].priority));
  }

  /** Both tables store the same priorities. */
  ghost predicate SamePriorities(jobs: map<Uuid, Job>, jobs': map<Uuid, Job>) {
    jobs.Keys == jobs'.Keys && forall j :: j in jobs ==> jobs[j].priority == jobs'[j].priority
  }

  lemma ArrivesInSameTier(jobs: map<Uuid, Job>, jobs': map<Uuid, Job>, q: Redis, q': Redis)
    requires SamePriorities(jobs, jobs') && ArrivesInTier(jobs, q, q')
    ensures ArrivesInTier(jobs', q, q')
  {
  }

  /** A pass that started from `db0` and `q0` has recovered the jobs of `js`. */
  ghost predicate PassAt(db0: Db, q0: Redis, js: set<Uuid>, reason: FailureCategory, now: int, db: Db, q: Redis) {
    && db == RetireAll(db0, js, reason, now).(workers := db.workers)
    && GrowsBy(q0, q, Requeued(db0, js))
    && ArrivesInTier(db0.jobs, q0, q)
  }

  lemma PassBegins(db: Db, q: Redis, reason: FailureCategory, now: int)
    ensures PassAt(db, q, {}, reason, now, db, q)
  {
    NothingToRetire(db, reason, now);
  }

  /** What `requeueJob` does to the queue after its transaction has committed. */
  ghost predicate Requeues(db: Db, j: Uuid, expected: Option<Uuid>) {
    RecoverTakes(db, j, expected) && RetriesLeft(db.jobs[j])
  }

  ghost function RequeueQueue(db: Db, q: Redis, j: Uuid, expected: Option<Uuid>): Redis {
    if Requeues(db, j, expected) then Enqueue(q, j, db.jobs[j].priority) else q
  }

  lemma RequeuedNext(db: Db, js: set<Uuid>, j: Uuid)
    ensures Requeued(db, js + {j}) == Requeued(db, js) + Requeued(db, {j})
  {
  }

  /** Enqueueing the recovered job keeps the queue in step with the jobs recovered so far. */
  lemma PassQueueStep(db0: Db, q0: Redis, js: set<Uuid>, db: Db, q: Redis, j: Uuid, expected: Option<Uuid>)
    requires GrowsBy(q0, q, Requeued(db0, js)) && ArrivesInTier(db0.jobs, q0, q)
    requires RecoverTakes(db, j, expected) <==> j in db0.jobs && j !in js && db0.jobs[j].status == Processing
    requires RecoverTakes(db, j, expected) ==> db.jobs[j] == db0.jobs[j]
    requires Requeues(db, j, expected) ==> ValidPriority(db.jobs[j].priority)
    ensures GrowsBy(q0, RequeueQueue(db, q, j, expected), Requeued(db0, js + {j}))
    ensures ArrivesInTier(db0.jobs, q0, RequeueQueue(db, q, j, expected))
  {
    if Requeues(db, j, expected) {
      ArrivesNext(db0.jobs, q0, q, j);
    }
    RequeuedNext(db0, js, j);
    if RecoverTakes(db, j, expected) {
      assert Requeued(db0, {j}) == if RetriesLeft(db0.jobs[j]) then {j} else {};
    } else {
      assert Requeued(db0, js + {j}) == Requeued(db0, js);
    }
  }

  lemma PassStep(db0: Db, q0: Redis, js: set<Uuid>, reason: FailureCategory, now: int, db: Db, q: Redis,
                 j: Uuid, expected: Option<Uuid>)
    requires Linked(db0) && Names(db0, j, expected) && PassAt(db0, q0, js, reason, now, db, q)
    ensures var db' := RecoverTx(db, j, expected, reason, now);
            && db' == RetireAll(db0, js + {j}, reason, now).(workers := db.workers)
            && (Requeues(db, j, expected) ==> j in db0.jobs && db.jobs[j].priority == db0.jobs[j].priority)
            && ((Requeues(db, j, expected) ==> ValidPriority(db.jobs[j].priority)) ==>
                  PassAt(db0, q0, js + {j}, reason, now, db', RequeueQueue(db, q, j, expected)))
  {
    var d := RetireAll(db0, js, reason, now);
    RetireNext(db0, js, j, expected, reason, now);
    RetireKeepsWorkers(d, db.workers, j, expected, reason, now);
    RetireNextTakes(db0, js, j, expected, reason, now);
    assert RecoverTakes(db, j, expected) == RecoverTakes(d, j, expected);
    if Requeues(db, j, expected) ==> ValidPriority(db.jobs[j].priority) {
      PassQueueStep(db0, q0, js, db, q, j, expected);
    }
  }

  // ---------- the reaper ----------

  datatype DeadWorker = DeadWorker(id: Uuid, currentJob: Option<Uuid>)
  datatype ExpiredAttempt = ExpiredAttempt(job: Uuid, attempt: Uuid)

  ghost function IdsOf(rows: seq<DeadWorker>): set<Uuid> {
    set r | r in rows :: r.id
  }

  ghost function NamesOf(rows: seq<DeadWorker>): set<Uuid> {
    set r | r in rows && r.currentJob.Some? :: r.currentJob.value
  }

  ghost function JobsOf(rows: seq<ExpiredAttempt>): set<Uuid> {
    set r | r in rows :: r.job
  }

  lemma ScannedWorkers(db: Db, c: Config, now: int, rows: seq<DeadWorker>, found: set<DeadWorker>)
    requires Elements(rows) == found
    requires found == set w | w in db.workers && db.workers[w].status == Busy
                              && db.workers[w].lastHeartbeat < now - c.deadWorkerThreshold
                            :: DeadWorker(w, db.workers[w].currentJob)
    ensures IdsOf(rows) == StaleWorkers(db, c, now)
    ensures NamesOf(rows) == NamedJobs(db, StaleWorkers(db, c, now))
  {
    assert forall r :: r in rows <==> r in found;
    forall w | w in StaleWorkers(db, c, now) ensures DeadWorker(w, db.workers[w].currentJob) in rows {
      assert DeadWorker(w, db.workers[w].currentJob) in found;
    }
    forall r | r in rows ensures IsStaleWorker(db, r.id, c, now) && r.currentJob == db.workers[r.id].currentJob {
      assert r in found;
    }
    forall w | w in StaleWorkers(db, c, now) ensures w in IdsOf(rows) {
      assert DeadWorker(w, db.workers[w].currentJob) in rows;
    }
    forall j | j in NamedJobs(db, StaleWorkers(db, c, now)) ensures j in NamesOf(rows) {
      var w :| w in StaleWorkers(db, c, now) && db.workers[w].currentJob == Some(j);
      assert DeadWorker(w, db.workers[w].currentJob) in rows;
    }
  }

  lemma ScannedAttempts(db: Db, c: Config, now: int, rows: seq<ExpiredAttempt>, found: set<ExpiredAttempt>)
    requires Elements(rows) == found
    requires found == set a | a in db.attempts && db.attempts[a].status == Running
                              && db.attempts[a].leaseExpiresAt < now - c.leaseExpiryGrace
                            :: ExpiredAttempt(db.attempts[a].job, a)
    ensures JobsOf(rows) == ExpiredJobs(db, c, now)
  {
    assert forall r :: r in rows <==> r in found;
    forall j | j in ExpiredJobs(db, c, now) ensures j in JobsOf(rows) {
      var a :| a in db.attempts && IsExpired(db, a, c, now) && db.attempts[a].job == j;
      assert ExpiredAttempt(j, a) in found;
    }
    forall j | j in JobsOf(rows) ensures j in ExpiredJobs(db, c, now) {
      var r :| r in rows && r.job == j;
      assert r in found;
      assert IsExpired(db, r.attempt, c, now);
    }
  }

  lemma LosingStarts(workers: map<Uuid, WorkerRow>)
    ensures LoseAll(workers, {}) == workers
  {
  }

  lemma LosingNext(workers: map<Uuid, WorkerRow>, ids: set<Uuid>, w: Uuid)
    ensures var lost := LoseAll(workers, ids);
            LoseAll(workers, ids + {w}) ==
              if w in lost then lost[w := lost[w].(status := Lost, currentJob := None)] else lost
  {
  }

  lemma NextWorker(rows: seq<DeadWorker>, i: nat)
    requires i < |rows|
    ensures IdsOf(rows[..i + 1]) == IdsOf(rows[..i]) + {rows[i].id}
    ensures NamesOf(rows[..i + 1]) ==
              NamesOf(rows[..i]) + if rows[i].currentJob.Some? then {rows[i].currentJob.value} else {}
  {
    assert rows[..i + 1] == rows[..i] + [rows[i]];
  }

  lemma NextAttempt(rows: seq<ExpiredAttempt>, i: nat)
    requires i < |rows|
    ensures JobsOf(rows[..i + 1]) == JobsOf(rows[..i]) + {rows[i].job}
  {
    assert rows[..i + 1] == rows[..i] + [rows[i]];
  }

  // ---------- a pass as the code runs it: row by row, stopping at the first error ----------

  datatype Progress = Progress(db: Db, q: Redis, ok: bool)

  ghost function RequeueStep(p: Progress, j: Uuid, expected: Option<Uuid>, reason: FailureCategory, now: int): Progress
  {
    Progress(RecoverTx(p.db, j, expected, reason, now), RequeueQueue(p.db, p.q, j, expected),
             Requeues(p.db, j, expected) ==> ValidPriority(p.db.jobs[j].priority))
  }

  ghost function DeadStep(p: Progress, row: DeadWorker, now: int): Progress {
    var marked := p.(db := MarkLostTx(p.db, row.id));
    if row.currentJob.Some? then RequeueStep(marked, row.currentJob.value, None, WorkerDeath, now) else marked
  }

  ghost function DeadRows(p: Progress, rows: seq<DeadWorker>, now: int): Progress {
    if rows == [] then p
    else
      var before := DeadRows(p, rows[..|rows| - 1], now);
      if before.ok then DeadStep(before, rows[|rows| - 1], now) else before
  }

  ghost function LeaseRows(p: Progress, rows: seq<ExpiredAttempt>, now: int): Progress {
    if rows == [] then p
    else
      var before := LeaseRows(p, rows[..|rows| - 1], now);
      var row := rows[|rows| - 1];
      if before.ok then RequeueStep(before, row.job, Some(row.attempt), LeaseExpired, now) else before
  }

  lemma MarkKeepsPass(db0: Db, q0: Redis, js: set<Uuid>, reason: FailureCategory, now: int, db: Db, q: Redis, w: Uuid)
    requires PassAt(db0, q0, js, reason, now, db, q)
    ensures PassAt(db0, q0, js, reason, now, MarkLostTx(db, w), q)
  {
  }

  lemma DeadStepSpec(db0: Db, q0: Redis, names: set<Uuid>, p: Progress, row: DeadWorker, now: int)
    requires Linked(db0) && PassAt(db0, q0, names, WorkerDeath, now, p.db, p.q) && p.ok
    ensures var p' := DeadStep(p, row, now);
            && (AllValid(db0) ==> p'.ok)
            && p'.db.workers == MarkLostTx(p.db, row.id).workers
            && (p'.ok ==> PassAt(db0, q0, names + if row.currentJob.Some? then {row.currentJob.value} else {},
                                 WorkerDeath, now, p'.db, p'.q))
  {
    var marked := MarkLostTx(p.db, row.id);
    MarkKeepsPass(db0, q0, names, WorkerDeath, now, p.db, p.q, row.id);
    if row.currentJob.Some? {
      PassStep(db0, q0, names, WorkerDeath, now, marked, p.q, row.currentJob.value, None);
    } else {
      assert names + {} == names;
    }
  }

  /** The death pass has dealt with `rows`, or has met an error. */
  ghost predicate DeadRowsDone(db0: Db, q0: Redis, rows: seq<DeadWorker>, p: Progress, now: int) {
    && (AllValid(db0) ==> p.ok)
    && (p.ok ==> PassAt(db0, q0, NamesOf(rows), WorkerDeath, now, p.db, p.q)
                 && p.db.workers == LoseAll(db0.workers, IdsOf(rows)))
  }

  lemma DeadRowsBegin(db0: Db, q0: Redis, now: int)
    ensures DeadRowsDone(db0, q0, [], Progress(db0, q0, true), now)
  {
    PassBegins(db0, q0, WorkerDeath, now);
    LosingStarts(db0.workers);
    assert NamesOf([]) == {} && IdsOf([]) == {};
  }

  lemma DeadRowsNext(db0: Db, q0: Redis, rows: seq<DeadWorker>, n: nat, p: Progress, now: int)
    requires n + 1 == |rows| && Linked(db0) && DeadRowsDone(db0, q0, rows[..n], p, now)
    ensures DeadRowsDone(db0, q0, rows, if p.ok then DeadStep(p, rows[n], now) else p, now)
  {
    if p.ok {
      assert rows[..n + 1] == rows;
      NextWorker(rows, n);
      LosingNext(db0.workers, IdsOf(rows[..n]), rows[n].id);
      DeadStepSpec(db0, q0, NamesOf(rows[..n]), p, rows[n], now);
    }
  }

  lemma {:induction false} DeadRowsSpec(db0: Db, q0: Redis, rows: seq<DeadWorker>, now: int)
    requires Linked(db0)
    ensures DeadRowsDone(db0, q0, rows, DeadRows(Progress(db0, q0, true), rows, now), now)
  {
    if rows == [] {
      DeadRowsBegin(db0, q0, now);
    } else {
      var n := |rows| - 1;
      DeadRowsSpec(db0, q0, rows[..n], now);
      DeadRowsNext(db0, q0, rows, n, DeadRows(Progress(db0, q0, true), rows[..n], now), now);
    }
  }

  /** The lease pass has dealt with `rows`, or has met an error. */
  ghost predicate LeaseRowsDone(db0: Db, q0: Redis, rows: seq<ExpiredAttempt>, p: Progress, now: int) {
    && (AllValid(db0) ==> p.ok)
    && (p.ok ==> PassAt(db0, q0, JobsOf(rows), LeaseExpired, now, p.db, p.q) && p.db.workers == db0.workers)
  }

  lemma LeaseRowsBegin(db0: Db, q0: Redis, now: int)
    ensures LeaseRowsDone(db0, q0, [], Progress(db0, q0, true), now)
  {
    PassBegins(db0, q0, LeaseExpired, now);
    assert JobsOf([]) == {};
  }

  lemma LeaseRowsNext(db0: Db, q0: Redis, rows: seq<ExpiredAttempt>, n: nat, p: Progress, now: int)
    requires n + 1 == |rows| && Linked(db0) && Names(db0, rows[n].job, Some(rows[n].attempt))
    requires LeaseRowsDone(db0, q0, rows[..n], p, now)
    ensures var next := RequeueStep(p, rows[n].job, Some(rows[n].attempt), LeaseExpired, now);
            LeaseRowsDone(db0, q0, rows, if p.ok then next else p, now)
  {
    if p.ok {
      assert rows[..n + 1] == rows;
      NextAttempt(rows, n);
      PassStep(db0, q0, JobsOf(rows[..n]), LeaseExpired, now, p.db, p.q, rows[n].job, Some(rows[n].attempt));
    }
  }

  lemma {:induction false} LeaseRowsSpec(db0: Db, q0: Redis, rows: seq<ExpiredAttempt>, now: int)
    requires Linked(db0)
    requires forall r :: r in rows ==> Names(db0, r.job, Some(r.attempt))
    ensures LeaseRowsDone(db0, q0, rows, LeaseRows(Progress(db0, q0, true), rows, now), now)
  {
    if rows == [] {
      LeaseRowsBegin(db0, q0, now);
    } else {
      var n := |rows| - 1;
      LeaseRowsSpec(db0, q0, rows[..n], now);
      LeaseRowsNext(db0, q0, rows, n, LeaseRows(Progress(db0, q0, true), rows[..n], now), now);
    }
  }

  /** The death pass leaves tables that the lease pass can start from. */
  lemma DeadPassReady(db: Db, c: Config, now: int)
    requires Linked(db)
    ensures Linked(DeadPass(db, c, now))
    ensures AllValid(db) ==> AllValid(DeadPass(db, c, now))
  {
    RetireAllLinks(db, NamedJobs(db, StaleWorkers(db, c, now)), WorkerDeath, now);
  }

  lemma LeasePassValid(db: Db, c: Config, now: int)
    ensures AllValid(db) ==> AllValid(LeasePass(db, c, now))
  {
  }

  lemma PassesCompose(db: Db, q0: Redis, q1: Redis, q2: Redis, q3: Redis, c: Config, now: int)
    requires GrowsBy(q0, q1, Requeued(db, NamedJobs(db, StaleWorkers(db, c, now))))
    requires GrowsBy(q1, q2, Requeued(DeadPass(db, c, now), ExpiredJobs(DeadPass(db, c, now), c, now)))
    requires GrowsBy(q2, q3, StaleQueued(SweepTables(db, c, now), c, now))
    ensures q3.members == SweepMembers(db, q0.members, c, now)
    ensures q3.members == q0.members ==> q3 == q0
  {
    GrowthComposes(q0, q1, q2, q3,
                   Requeued(db, NamedJobs(db, StaleWorkers(db, c, now))),
                   Requeued(DeadPass(db, c, now), ExpiredJobs(DeadPass(db, c, now), c, now)),
                   StaleQueued(SweepTables(db, c, now), c, now));
  }

  /** The passes leave the stored priorities alone. */
  lemma PassesKeepPriorities(db: Db, c: Config, now: int)
    ensures SamePriorities(db.jobs, DeadPass(db, c, now).jobs)
    ensures SamePriorities(db.jobs, LeasePass(db, c, now).jobs)
  {
  }

  lemma ArrivalsOfSweep(jobs0: map<Uuid, Job>, jobs1: map<Uuid, Job>, jobs2: map<Uuid, Job>,
                        q0: Redis, q1: Redis, q2: Redis, q3: Redis)
    requires SamePriorities(jobs0, jobs1) && SamePriorities(jobs1, jobs2)
    requires ArrivesInTier(jobs0, q0, q1) && ArrivesInTier(jobs1, q1, q2) && ArrivesInTier(jobs2, q2, q3)
    ensures ArrivesInTier(jobs2, q0, q3)
  {
    ArrivesInSameTier(jobs0, jobs2, q0, q1);
    ArrivesInSameTier(jobs1, jobs2, q1, q2);
    ArrivalsCompose(jobs2, q0, q1, q2);
    ArrivalsCompose(jobs2, q0, q2, q3);
  }

  lemma GrowsNext(q0: Redis, q: Redis, q': Redis, rows: seq<Uuid>, i: nat)
    requires i < |rows| && GrowsBy(q0, q, Elements(rows[..i])) && GrowsBy(q, q', {rows[i]})
    ensures GrowsBy(q0, q', Elements(rows[..i + 1]))
  {
    assert Elements(rows[..i + 1]) == Elements(rows[..i]) + {rows[i]};
  }

  lemma GrowthComposes(q0: Redis, q1: Redis, q2: Redis, q3: Redis, a: set<Uuid>, b: set<Uuid>, c: set<Uuid>)
    requires GrowsBy(q0, q1, a) && GrowsBy(q1, q2, b) && GrowsBy(q2, q3, c)
    ensures q3.members == q0.members + a + b + c
    ensures q3.members == q0.members ==> q3 == q0
  {
    if q3.members == q0.members {
      assert a <= q0.members && b <= q1.members && c <= q2.members;
    }
  }

  class Reaper {
    const db: Postgres.Store
    const redis: RedisQueue
    const config: Config

    constructor (db: Postgres.Store, redis: RedisQueue, config: Config)
      ensures this.db == db && this.redis == redis && this.config == config
    {
      this.db, this.redis, this.config := db, redis, config;
    }

    ghost function Now(ok: bool): Progress
      reads this, db, redis
    {
      Progress(db.Tables(), redis.State(), ok)
    }

    /** Commit first, then enqueue; the only error left is a priority the queue refuses. */
    method RequeueJob(j: Uuid, expected: Option<Uuid>, reason: FailureCategory, now: int) returns (ok: bool)
      modifies db, redis
      ensures Now(ok) == RequeueStep(old(Now(true)), j, expected, reason, now)
    {
      ok := true;
      var requeue := db.RetireCurrent(j, expected, reason, now);
      if requeue.Some? {
        ok := redis.Push(j, requeue.value);
      }
    }

    method ScanDeadWorkers(now: int) returns (rows: seq<DeadWorker>)
      ensures IdsOf(rows) == StaleWorkers(db.Tables(), config, now)
      ensures NamesOf(rows) == NamedJobs(db.Tables(), StaleWorkers(db.Tables(), config, now))
    {
      var found := set w | w in db.workers && db.workers[w].status == Busy
                           && db.workers[w].lastHeartbeat < now - config.deadWorkerThreshold
                         :: DeadWorker(w, db.workers[w].currentJob);
      rows := Select(found);
      ScannedWorkers(db.Tables(), config, now, rows, found);
    }

    method RecoverWorkers(rows: seq<DeadWorker>, now: int) returns (ok: bool)
      modifies db, redis
      ensures Now(ok) == DeadRows(old(Now(true)), rows, now) || !ok
      ensures exists n :: 0 <= n <= |rows| && Now(ok) == DeadRows(old(Now(true)), rows[..n], now)
    {
      ok := true;
      for i := 0 to |rows|
        invariant ok && Now(true) == DeadRows(old(Now(true)), rows[..i], now)
      {
        assert rows[..i + 1][..i] == rows[..i];
        db.MarkWorkerLost(rows[i].id);
        if rows[i].currentJob.Some? {
          ok := RequeueJob(rows[i].currentJob.value, None, WorkerDeath, now);
          if !ok {
            return;
          }
        }
      }
      assert rows[..|rows|] == rows;
    }

    method RecoverDeadWorkers(now: int) returns (ok: bool)
      requires Linked(db.Tables())
      modifies db, redis
      ensures AllValid(old(db.Tables())) ==> ok
      ensures ok ==> db.Tables() == DeadPass(old(db.Tables()), config, now)
      ensures ok ==> GrowsBy(old(redis.State()), redis.State(),
                             Requeued(old(db.Tables()),
                                      NamedJobs(old(db.Tables()), StaleWorkers(old(db.Tables()), config, now))))
      ensures ok ==> ArrivesInTier(old(db.jobs), old(redis.State()), redis.State())
    {
      ghost var db0, q0 := db.Tables(), redis.State();
      var rows := ScanDeadWorkers(now);
      ok := RecoverWorkers(rows, now);
      ghost var n :| 0 <= n <= |rows| && Now(ok) == DeadRows(Progress(db0, q0, true), rows[..n], now);
      DeadRowsSpec(db0, q0, rows[..n], now);
      DeadRowsSpec(db0, q0, rows, now);
    }

    method ScanExpiredAttempts(now: int) returns (rows: seq<ExpiredAttempt>)
      ensures JobsOf(rows) == ExpiredJobs(db.Tables(), config, now)
      ensures forall r :: r in rows ==> Names(db.Tables(), r.job, Some(r.attempt))
    {
      var found := set a | a in db.attempts && db.attempts[a].status == Running
                           && db.attempts[a].leaseExpiresAt < now - config.leaseExpiryGrace
                         :: ExpiredAttempt(db.attempts[a].job, a);
      rows := Select(found);
      ScannedAttempts(db.Tables(), config, now, rows, found);
      forall r | r in rows ensures Names(db.Tables(), r.job, Some(r.attempt)) {
        assert r in Elements(rows);
      }
    }

    method RecoverAttempts(rows: seq<ExpiredAttempt>, now: int) returns (ok: bool)
      modifies db, redis
      ensures Now(ok) == LeaseRows(old(Now(true)), rows, now) || !ok
      ensures exists n :: 0 <= n <= |rows| && Now(ok) == LeaseRows(old(Now(true)), rows[..n], now)
    {
      ok := true;
      for i := 0 to |rows|
        invariant ok && Now(true) == LeaseRows(old(Now(true)), rows[..i], now)
      {
        assert rows[..i + 1][..i] == rows[..i];
        ok := RequeueJob(rows[i].job, Some(rows[i].attempt), LeaseExpired, now);
        if !ok {
          return;
        }
      }
      assert rows[..|rows|] == rows;
    }

    method RecoverOrphanedJobs(now: int) returns (ok: bool)
      requires Linked(db.Tables())
      modifies db, redis
      ensures AllValid(old(db.Tables())) ==> ok
      ensures ok ==> db.Tables() == LeasePass(old(db.Tables()), config, now)
      ensures ok ==> GrowsBy(old(redis.State()), redis.State(),
                             Requeued(old(db.Tables()), ExpiredJobs(old(db.Tables()), config, now)))
      ensures ok ==> ArrivesInTier(old(db.jobs), old(redis.State()), redis.State())
    {
      ghost var db0, q0 := db.Tables(), redis.State();
      var rows := ScanExpiredAttempts(now);
      ok := RecoverAttempts(rows, now);
      ghost var n :| 0 <= n <= |rows| && Now(ok) == LeaseRows(Progress(db0, q0, true), rows[..n], now);
      LeaseRowsSpec(db0, q0, rows[..n], now);
      LeaseRowsSpec(db0, q0, rows, now);
    }

    /** Enqueues a job whose entry is missing, under its stored priority. */
    method RestoreEntry(j: Uuid) returns (ok: bool)
      requires j in db.jobs
      modifies redis
      ensures AllValid(db.Tables()) ==> ok
      ensures ok ==> GrowsBy(old(redis.State()), redis.State(), {j})
      ensures ArrivesInTier(db.jobs, old(redis.State()), redis.State())
    {
      ok := redis.Contains(j);
      if !ok {
        EnqueueArrives(db.jobs, redis.State(), j);
        ok := redis.Push(j, db.jobs[j].priority);
      }
    }

    method RestoreEntries(rows: seq<Uuid>) returns (ok: bool)
      requires forall j :: j in rows ==> j in db.jobs
      modifies redis
      ensures AllValid(db.Tables()) ==> ok
      ensures ok ==> GrowsBy(old(redis.State()), redis.State(), Elements(rows))
      ensures ArrivesInTier(db.jobs, old(redis.State()), redis.State())
    {
      ghost var q0 := redis.State();
      for i := 0 to |rows|
        invariant GrowsBy(q0, redis.State(), Elements(rows[..i]))
        invariant ArrivesInTier(db.jobs, q0, redis.State())
      {
        ghost var q := redis.State();
        ok := RestoreEntry(rows[i]);
        ArrivalsCompose(db.jobs, q0, q, redis.State());
        if !ok {
          return;
        }
        GrowsNext(q0, q, redis.State(), rows, i);
      }
      ok := true;
      assert rows[..|rows|] == rows;
    }

    /** Jobs whose queue entry is missing are enqueued again under their stored priority. */
    method RecoverMissingQueueMessages(now: int) returns (ok: bool)
      modifies redis
      ensures AllValid(db.Tables()) ==> ok
      ensures ok ==> GrowsBy(old(redis.State()), redis.State(), StaleQueued(db.Tables(), config, now))
      ensures ok ==> forall j :: j in db.jobs && db.jobs[j].status == Queued
                                 && db.jobs[j].updatedAt < now - config.staleQueueThreshold ==>
                                   j in redis.State().members
      ensures ArrivesInTier(db.jobs, old(redis.State()), redis.State())
    {
      var found: set<Uuid> := set j | j in db.jobs && db.jobs[j].status == Queued
                           && db.jobs[j].updatedAt < now - config.staleQueueThreshold;
      var rows: seq<Uuid> := Select(found);
      forall j | j in rows ensures j in db.jobs {
        assert j in Elements(rows);
      }
      assert StaleQueued(db.Tables(), config, now) == found;
      ok := RestoreEntries(rows);
    }

    /**
     The three passes in order. With priorities the queue accepts, the sweep succeeds and leaves
     the tables and the membership set that `SweepTables` and `SweepMembers` describe, with every
     new member behind the others in the tier of its stored priority; if there is no new member,
     the queue's lists are untouched as well.
     */
    method Sweep(now: int) returns (ok: bool)
      requires Linked(db.Tables())
      modifies db, redis
      ensures AllValid(old(db.Tables())) ==> ok
      ensures ok ==> db.Tables() == SweepTables(old(db.Tables()), config, now)
      ensures ok ==> redis.State().members == SweepMembers(old(db.Tables()), old(redis.State()).members, config, now)
      ensures ok && redis.State().members == old(redis.State()).members ==> redis.State() == old(redis.State())
      ensures ok ==> ArrivesInTier(db.jobs, old(redis.State()), redis.State())
    {
      ghost var db0, q0 := db.Tables(), redis.State();
      DeadPassReady(db0, config, now);
      ok := RecoverDeadWorkers(now);
      if !ok {
        return;
      }
      ghost var db1, q1 := db.Tables(), redis.State();
      ok := RecoverOrphanedJobs(now);
      if !ok {
        return;
      }
      ghost var db2, q2 := db.Tables(), redis.State();
      LeasePassValid(db1, config, now);
      ok := RecoverMissingQueueMessages(now);
      if ok {
        PassesCompose(db0, q0, q1, q2, redis.State(), config, now);
        PassesKeepPriorities(db0, config, now);
        PassesKeepPriorities(db1, config, now);
        ArrivalsOfSweep(db0.jobs, db1.jobs, db2.jobs, q0, q1, q2, redis.State());
      }
    }
  }
}
