/**
 The invariant of every reachable database: a job is processing exactly while it has a
 current attempt, the running attempts are exactly the current ones, attempt numbers and
 statuses account for the retry counter, and only completed jobs have output rows.
 */
module Invariant {
  import opened Common
  import opened Database

  /** How many attempts a job has had so far. */
  function AttemptsSoFar(job: Job): nat {
    job.retryCount + if job.status == Queued then 0 else 1
  }

  predicate Spent(status: AttemptStatus) {
    status == Failed || status == Expired
  }

  ghost predicate JobOk(db: Db, j: Uuid)
    requires j in db.jobs
  {
    var job := db.jobs[j];
    && job.retryCount <= job.maxRetries
    && (job.status == Dead ==> job.retryCount == job.maxRetries)
    && (job.status == Processing <==> job.current.Some?)
    && (job.status == Completed <==> job.completed.Some?)
    && (job.current.Some? ==>
          && job.current.value in db.attempts
          && db.attempts[job.current.value].job == j
          && db.attempts[job.current.value].status == Running)
    && (job.completed.Some? ==>
          && job.completed.value in db.attempts
          && db.attempts[job.completed.value].job == j
          && db.attempts[job.completed.value].status == Succeeded)
  }

  ghost predicate AttemptOk(db: Db, a: Uuid)
    requires a in db.attempts
  {
    var att := db.attempts[a];
    && att.job in db.jobs
    && var job := db.jobs[att.job];
    && 1 <= att.number <= AttemptsSoFar(job)
    && (att.number <= job.retryCount ==> Spent(att.status))
    && (att.number == job.retryCount + 1 ==>
          match job.status
          case Processing => att.status == Running && job.current == Some(a)
          case Completed => att.status == Succeeded && job.completed == Some(a)
          case Dead => Spent(att.status)
          case Queued => false)
  }

  ghost predicate OutputOk(db: Db, j: Uuid, t: OutputType)
    requires (j, t) in db.outputs
  {
    && j in db.jobs
    && db.jobs[j].completed == Some(db.outputs[(j, t)].attempt)
  }

  ghost predicate NumbersUnique(db: Db) {
    forall a, b ::
      (&& a in db.attempts && b in db.attempts
       && db.attempts[a].job == db.attempts[b].job
       && db.attempts[a].number == db.attempts[b].number) ==> a == b
  }

  ghost predicate NumbersDense(db: Db) {
    forall j, n: nat :: j in db.jobs && 1 <= n <= AttemptsSoFar(db.jobs[j]) ==> HasNumber(db, j, n)
  }

  ghost predicate Inv(db: Db) {
    && (forall j :: j in db.jobs ==> JobOk(db, j))
    && (forall a :: a in db.attempts ==> AttemptOk(db, a))
    && (forall j, t :: (j, t) in db.outputs ==> OutputOk(db, j, t))
    && NumbersUnique(db)
    && NumbersDense(db)
  }

  // ---------- the four shapes of a committed transaction ----------

  /** The row without the duration columns. */
  function Core(att: Attempt): Attempt {
    att.(durations := map[])
  }

  /** Identity, owner, number and status stay; only a running attempt may change more than durations. */
  ghost predicate Similar(att: Attempt, att': Attempt) {
    && att'.job == att.job && att'.number == att.number && att'.worker == att.worker
    && att'.status == att.status
    && (att.status != Running ==> Core(att') == Core(att))
  }

  /** No job, no output and no attempt status moves. */
  ghost predicate Cosmetic(db: Db, db': Db) {
    && db'.jobs == db.jobs && db'.outputs == db.outputs
    && db'.attempts.Keys == db.attempts.Keys
    && (forall a :: a in db.attempts ==> Similar(db.attempts[a], db'.attempts[a]))
  }

  /** Job `j` enters, queued. */
  ghost predicate Created(db: Db, db': Db, j: Uuid) {
    && j !in db.jobs && j in db'.jobs
    && db' == db.(jobs := db.jobs[j := db'.jobs[j]])
    && var job := db'.jobs[j];
    job.status == Queued && job.retryCount == 0 && job.current == None && job.completed == None
  }

  /** Queued job `j` starts its next attempt `a`. */
  ghost predicate Claimed(db: Db, db': Db, j: Uuid, a: Uuid) {
    && j in db.jobs && j in db'.jobs && a !in db.attempts && a in db'.attempts
    && db' == db.(jobs := db.jobs[j := db'.jobs[j]], attempts := db.attempts[a := db'.attempts[a]])
    && db.jobs[j].status == Queued
    && db'.jobs[j] == db.jobs[j].(status := Processing, current := Some(a), updatedAt := db'.jobs[j].updatedAt)
    && db'.attempts[a].job == j && db'.attempts[a].number == db.jobs[j].retryCount + 1
    && db'.attempts[a].status == Running
  }

  /** The current attempt `a` of job `j` ends, and the job moves on. */
  ghost predicate Ended(db: Db, db': Db, j: Uuid, a: Uuid) {
    && IsCurrent(db, j, a) && a in db.attempts && j in db'.jobs && a in db'.attempts
    && db'.jobs == db.jobs[j := db'.jobs[j]]
    && db'.attempts == db.attempts[a := db'.attempts[a]]
    && EndsAs(db.jobs[j], db'.jobs[j], a, db.attempts[a], db'.attempts[a])
    && (db'.jobs[j].status != Completed ==> db'.outputs == db.outputs)
    && (forall k, t :: k != j ==> ((k, t) in db'.outputs <==> (k, t) in db.outputs))
    && (forall k, t :: k != j && (k, t) in db.outputs ==> db'.outputs[(k, t)] == db.outputs[(k, t)])
    && (forall t :: (j, t) in db'.outputs ==> (j, t) in db.outputs || db'.outputs[(j, t)].attempt == a)
  }

  ghost predicate EndsAs(job: Job, job': Job, a: Uuid, att: Attempt, att': Attempt) {
    && att'.job == att.job && att'.number == att.number && att'.worker == att.worker
    && job'.maxRetries == job.maxRetries && job'.priority == job.priority && job'.current == None
    && match job'.status
       case Completed => att'.status == Succeeded && job'.completed == Some(a) && job'.retryCount == job.retryCount
       case Queued => Spent(att'.status) && job'.completed == job.completed
                      && job'.retryCount == job.retryCount + 1 <= job.maxRetries
       case Dead => Spent(att'.status) && job'.completed == job.completed
                    && job'.retryCount == job.retryCount >= job.maxRetries
       case Processing => false
  }

  datatype Shape = Quiet | Creation(job: Uuid) | Start(job: Uuid, attempt: Uuid) | End(job: Uuid, attempt: Uuid)

  /** Which shape a transaction takes in a given database. */
  ghost function ShapeOf(db: Db, e: Event): Shape {
    match e
    case Create(j, maxRetries, _, _) => if CreateTakes(db, j, maxRetries) then Creation(j) else Quiet
    case Claim(j, a, w, _, _) => if ClaimTakes(db, j, a, w) then Start(j, a) else Quiet
    case Complete(j, a, _, _) => if CompleteTakes(db, j, a) then End(j, a) else Quiet
    case Fail(j, a, _) => if IsCurrent(db, j, a) then End(j, a) else Quiet
    case Recover(j, expected, _, _) => if RecoverTakes(db, j, expected) then End(j, db.jobs[j].current.value) else Quiet
    case _ => Quiet
  }

  ghost predicate HasShape(db: Db, db': Db, shape: Shape) {
    match shape
    case Quiet => Cosmetic(db, db')
    case Creation(j) => Created(db, db', j)
    case Start(j, a) => Claimed(db, db', j, a)
    case End(j, a) => Ended(db, db', j, a)
  }

  lemma CosmeticUpdate(db: Db, a: Uuid, att': Attempt)
    requires a in db.attempts && Similar(db.attempts[a], att')
    ensures Cosmetic(db, db.(attempts := db.attempts[a := att']))
  {
    var attempts' := db.attempts[a := att'];
    assert attempts'.Keys == db.attempts.Keys;
    forall b | b in db.attempts ensures Similar(db.attempts[b], attempts'[b]) {
    }
  }

  lemma {:induction false} UpsertKeys(rows: map<(Uuid, OutputType), OutputRow>, j: Uuid, a: Uuid, outs: seq<Output>,
                                      k: Uuid, t: OutputType)
    ensures var rows' := Upsert(rows, j, a, outs);
            if k == j && exists i :: 0 <= i < |outs| && outs[i].kind == t
            then (k, t) in rows' && rows'[(k, t)].attempt == a
            else ((k, t) in rows' <==> (k, t) in rows) && ((k, t) in rows ==> rows'[(k, t)] == rows[(k, t)])
  {
    if outs != [] {
      var n := |outs| - 1;
      UpsertKeys(rows, j, a, outs[..n], k, t);
      if k == j && exists i :: 0 <= i < n && outs[i].kind == t {
        var i :| 0 <= i < n && outs[i].kind == t;
        assert outs[..n][i].kind == t;
      } else if k == j && exists i :: 0 <= i < |outs| && outs[i].kind == t {
        assert outs[n].kind == t;
      } else {
        assert k == j ==> outs[n].kind != t;
        assert !(k == j && exists i :: 0 <= i < |outs[..n]| && outs[..n][i].kind == t);
      }
    }
  }

  lemma CompleteEnds(db: Db, j: Uuid, a: Uuid, outs: seq<Output>, now: int)
    requires Inv(db) && CompleteTakes(db, j, a)
    ensures Ended(db, CompleteTx(db, j, a, outs, now), j, a)
  {
    var db' := CompleteTx(db, j, a, outs, now);
    assert JobOk(db, j);
    forall k, t
      ensures k != j ==> ((k, t) in db'.outputs <==> (k, t) in db.outputs)
      ensures k != j && (k, t) in db.outputs ==> db'.outputs[(k, t)] == db.outputs[(k, t)]
      ensures k == j && (k, t) in db'.outputs ==> (k, t) in db.outputs || db'.outputs[(k, t)].attempt == a
    {
      UpsertKeys(db.outputs, j, a, outs, k, t);
    }
  }

  lemma RetirementEnds(db: Db, db': Db, j: Uuid, a: Uuid, end: AttemptStatus,
                       category: Option<FailureCategory>, now: int)
    requires Inv(db) && IsCurrent(db, j, a) && Spent(end)
    requires db' == db.(attempts := EndAttempt(db.attempts, a, end, category, now),
                        jobs := db.jobs[j := Retire(db.jobs[j], now)])
    ensures Ended(db, db', j, a)
  {
    assert JobOk(db, j);
  }

  /**
   In a reachable database nothing but a clashing attempt id or an unregistered worker can
   keep a queued job from being claimed: the UNIQUE (job_id, attempt_number) constraint never
   rejects the INSERT, and the conditional UPDATE always finds its row.
   */
  lemma ClaimAlwaysTakesEffect(db: Db, j: Uuid, a: Uuid, w: Uuid, ttl: nat, now: int)
    requires Inv(db)
    ensures ClaimTakes(db, j, a, w) <==>
              j in db.jobs && db.jobs[j].status == Queued && a !in db.attempts && w in db.workers
    ensures ClaimTakes(db, j, a, w) ==> IsCurrent(ClaimTx(db, j, a, w, ttl, now), j, a)
  {
    if j in db.jobs && db.jobs[j].status == Queued {
      forall b | b in db.attempts
        ensures !(db.attempts[b].job == j && db.attempts[b].number == db.jobs[j].retryCount + 1)
      {
        assert AttemptOk(db, b);
      }
      assert JobOk(db, j);
    }
  }

  lemma QuietShape(db: Db, e: Event)
    requires ShapeOf(db, e) == Quiet
    ensures Cosmetic(db, Apply(db, e))
  {
    if Apply(db, e).attempts != db.attempts {
      CosmeticUpdate(db, e.attempt, Apply(db, e).attempts[e.attempt]);
    }
  }

  /** Every transaction, whatever its arguments, takes the shape that `ShapeOf` announces. */
  lemma StepShape(db: Db, e: Event)
    requires Inv(db)
    ensures HasShape(db, Apply(db, e), ShapeOf(db, e))
  {
    match ShapeOf(db, e)
    case Quiet => QuietShape(db, e);
    case Creation(_) =>
    case Start(j, a) => ClaimAlwaysTakesEffect(db, j, a, e.worker, e.ttl, e.now);
    case End(j, a) =>
      match e
      case Complete(_, _, outs, now) => CompleteEnds(db, j, a, outs, now);
      case Fail(_, _, now) => RetirementEnds(db, Apply(db, e), j, a, Failed, Some(ProcessingFailure), now);
      case Recover(_, _, reason, now) => RetirementEnds(db, Apply(db, e), j, a, Expired, Some(reason), now);
  }

  // ---------- each shape keeps the invariant ----------

  /** Where attempts keep job and number and jobs keep their count, numbering carries over. */
  lemma NumbersCarryOver(db: Db, db': Db)
    requires Inv(db)
    requires db.attempts.Keys == db'.attempts.Keys
    requires forall a :: a in db.attempts ==> db'.attempts[a].job == db.attempts[a].job
                                              && db'.attempts[a].number == db.attempts[a].number
    requires forall j :: j in db'.jobs ==>
               if j in db.jobs then AttemptsSoFar(db'.jobs[j]) == AttemptsSoFar(db.jobs[j])
               else AttemptsSoFar(db'.jobs[j]) == 0
    ensures NumbersUnique(db') && NumbersDense(db')
  {
    forall j, n: nat | j in db'.jobs && 1 <= n <= AttemptsSoFar(db'.jobs[j])
      ensures HasNumber(db', j, n)
    {
      assert HasNumber(db, j, n);
      var a :| a in db.attempts && db.attempts[a].job == j && db.attempts[a].number == n;
      assert a in db'.attempts;
    }
  }

  lemma CosmeticKeepsInv(db: Db, db': Db)
    requires Inv(db) && Cosmetic(db, db')
    ensures Inv(db')
  {
    NumbersCarryOver(db, db');
    forall k | k in db'.jobs ensures JobOk(db', k) {
      assert JobOk(db, k);
    }
    forall a | a in db'.attempts ensures AttemptOk(db', a) {
      assert AttemptOk(db, a) && Similar(db.attempts[a], db'.attempts[a]);
    }
    forall k, t | (k, t) in db'.outputs ensures OutputOk(db', k, t) {
      assert OutputOk(db, k, t);
    }
  }

  lemma CreationKeepsInv(db: Db, db': Db, j: Uuid)
    requires Inv(db) && Created(db, db', j)
    ensures Inv(db')
  {
    NumbersCarryOver(db, db');
    forall k | k in db'.jobs ensures JobOk(db', k) {
      assert k != j ==> JobOk(db, k);
    }
    forall a | a in db'.attempts ensures AttemptOk(db', a) {
      assert AttemptOk(db, a);
    }
    forall k, t | (k, t) in db'.outputs ensures OutputOk(db', k, t) {
      assert OutputOk(db, k, t);
    }
  }

  lemma StartKeepsNumbers(db: Db, db': Db, j: Uuid, a: Uuid)
    requires Inv(db) && Claimed(db, db', j, a)
    ensures NumbersUnique(db') && NumbersDense(db')
  {
    forall k, n: nat | k in db'.jobs && 1 <= n <= AttemptsSoFar(db'.jobs[k])
      ensures HasNumber(db', k, n)
    {
      if k == j && n == db'.attempts[a].number {
        assert db'.attempts[a].job == j;
      } else {
        assert HasNumber(db, k, n);
        var b :| b in db.attempts && db.attempts[b].job == k && db.attempts[b].number == n;
        assert b in db'.attempts && db'.attempts[b] == db.attempts[b];
      }
    }
    forall b | b in db.attempts && db.attempts[b].job == j ensures db.attempts[b].number != db'.attempts[a].number {
      assert AttemptOk(db, b);
    }
  }

  lemma StartKeepsInv(db: Db, db': Db, j: Uuid, a: Uuid)
    requires Inv(db) && Claimed(db, db', j, a)
    ensures Inv(db')
  {
    StartKeepsNumbers(db, db', j, a);
    assert JobOk(db, j);
    forall k | k in db'.jobs ensures JobOk(db', k) {
      assert JobOk(db, k);
    }
    forall b | b in db'.attempts ensures AttemptOk(db', b) {
      assert b != a ==> AttemptOk(db, b);
    }
    forall k, t | (k, t) in db'.outputs ensures OutputOk(db', k, t) {
      assert OutputOk(db, k, t);
    }
  }

  lemma EndKeepsAttempts(db: Db, db': Db, j: Uuid, a: Uuid)
    requires Inv(db) && Ended(db, db', j, a)
    ensures forall b :: b in db'.attempts ==> AttemptOk(db', b)
  {
    assert JobOk(db, j) && AttemptOk(db, a);
    forall b | b in db'.attempts ensures AttemptOk(db', b) {
      assert AttemptOk(db, b);
    }
  }

  lemma EndKeepsCounts(db: Db, db': Db, j: Uuid, a: Uuid)
    requires Ended(db, db', j, a)
    ensures db.attempts.Keys == db'.attempts.Keys
    ensures forall b :: b in db.attempts ==> db'.attempts[b].job == db.attempts[b].job
                                             && db'.attempts[b].number == db.attempts[b].number
    ensures forall k :: k in db'.jobs ==> k in db.jobs && AttemptsSoFar(db'.jobs[k]) == AttemptsSoFar(db.jobs[k])
  {
  }

  lemma EndKeepsNumbers(db: Db, db': Db, j: Uuid, a: Uuid)
    requires Inv(db) && Ended(db, db', j, a)
    ensures NumbersUnique(db') && NumbersDense(db')
  {
    EndKeepsCounts(db, db', j, a);
    NumbersCarryOver(db, db');
  }

  lemma EndKeepsJobs(db: Db, db': Db, j: Uuid, a: Uuid)
    requires Inv(db) && Ended(db, db', j, a)
    ensures forall k :: k in db'.jobs ==> JobOk(db', k)
  {
    assert JobOk(db, j);
    forall k | k in db'.jobs ensures JobOk(db', k) {
      assert JobOk(db, k);
    }
  }

  lemma EndKeepsOutputs(db: Db, db': Db, j: Uuid, a: Uuid)
    requires Inv(db) && Ended(db, db', j, a)
    ensures forall k, t :: (k, t) in db'.outputs ==> OutputOk(db', k, t)
  {
    assert JobOk(db, j);
    forall k, t | (k, t) in db'.outputs ensures OutputOk(db', k, t) {
      if (k, t) in db.outputs {
        assert OutputOk(db, k, t);
      }
    }
  }

  lemma EndKeepsInv(db: Db, db': Db, j: Uuid, a: Uuid)
    requires Inv(db) && Ended(db, db', j, a)
    ensures Inv(db')
  {
    EndKeepsJobs(db, db', j, a);
    EndKeepsAttempts(db, db', j, a);
    EndKeepsOutputs(db, db', j, a);
    EndKeepsNumbers(db, db', j, a);
  }

  /** Every transaction, with any arguments and in any order, keeps the invariant. */
  lemma StepKeepsInv(db: Db, e: Event)
    requires Inv(db)
    ensures Inv(Apply(db, e))
  {
    StepShape(db, e);
    match ShapeOf(db, e)
    case Quiet => CosmeticKeepsInv(db, Apply(db, e));
    case Creation(j) => CreationKeepsInv(db, Apply(db, e), j);
    case Start(j, a) => StartKeepsInv(db, Apply(db, e), j, a);
    case End(j, a) => EndKeepsInv(db, Apply(db, e), j, a);
  }

  lemma {:induction false} RunKeepsInv(db: Db, es: seq<Event>)
    requires Inv(db)
    ensures Inv(Run(db, es))
  {
    if es != [] {
      RunKeepsInv(db, es[..|es| - 1]);
      StepKeepsInv(Run(db, es[..|es| - 1]), es[|es| - 1]);
    }
  }

  /** Starting from the empty database, every run of transactions stays inside the invariant. */
  lemma AlwaysInv(es: seq<Event>)
    ensures Inv(Run(EMPTY, es))
  {
    RunKeepsInv(EMPTY, es);
  }
}
