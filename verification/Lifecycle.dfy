/**
 What holds of every run of transactions from the empty database, whoever issues them, with
 whatever arguments, in whatever order. Nothing here looks at Redis or at reaper leadership:
 claims may name any job, sweeps may overlap, workers may be long dead.
 */
module Lifecycle {
  import opened Common
  import opened Database
  import opened Invariant

  // ---------- running attempts ----------

  /** An attempt is running exactly when it is the current attempt of its processing job. */
  lemma RunningAttemptBijection(es: seq<Event>)
    ensures var db := Run(EMPTY, es);
            && (forall j, a :: IsCurrent(db, j, a) <==>
                  a in db.attempts && db.attempts[a].job == j && db.attempts[a].status == Running)
            && (forall j :: j in db.jobs ==> (db.jobs[j].status == Processing <==> db.jobs[j].current.Some?))
  {
    AlwaysInv(es);
    var db := Run(EMPTY, es);
    forall j, a
      ensures IsCurrent(db, j, a) <==>
                a in db.attempts && db.attempts[a].job == j && db.attempts[a].status == Running
    {
      if j in db.jobs {
        assert JobOk(db, j);
      }
      if a in db.attempts {
        assert AttemptOk(db, a);
      }
    }
    forall j | j in db.jobs ensures db.jobs[j].status == Processing <==> db.jobs[j].current.Some? {
      assert JobOk(db, j);
    }
  }

  // ---------- the four-state job machine ----------

  /** The edges a job row may take, with what each does to the retry counter. */
  predicate LegalEdge(job: Job, job': Job) {
    && job'.maxRetries == job.maxRetries
    && job'.priority == job.priority
    && match (job.status, job'.status)
       case (Queued, Processing) => job'.retryCount == job.retryCount
       case (Processing, Completed) => job'.retryCount == job.retryCount
       case (Processing, Queued) => job'.retryCount == job.retryCount + 1
       case (Processing, Dead) => job'.retryCount == job.retryCount
       case _ => false
  }

  /** The jobs table stutters or takes exactly one job along one edge, or gains one queued job. */
  ghost predicate JobsMoveLegally(db: Db, db': Db) {
    && (forall j :: j in db.jobs ==>
          j in db'.jobs && (db'.jobs[j] == db.jobs[j] || LegalEdge(db.jobs[j], db'.jobs[j])))
    && (forall j :: j in db'.jobs && j !in db.jobs ==>
          db'.jobs[j].status == Queued && db'.jobs[j].retryCount == 0)
    && (forall j, k :: j in db'.jobs && k in db'.jobs && j != k ==>
          (j in db.jobs && db'.jobs[j] == db.jobs[j]) || (k in db.jobs && db'.jobs[k] == db.jobs[k]))
  }

  lemma ShapeMovesLegally(db: Db, db': Db, shape: Shape)
    requires HasShape(db, db', shape)
    ensures JobsMoveLegally(db, db')
  {
  }

  /** At every moment of every run, every transaction is a stutter or exactly one legal edge. */
  lemma OneLegalEdge(es: seq<Event>, e: Event)
    ensures JobsMoveLegally(Run(EMPTY, es), Apply(Run(EMPTY, es), e))
  {
    AlwaysInv(es);
    StepShape(Run(EMPTY, es), e);
    ShapeMovesLegally(Run(EMPTY, es), Apply(Run(EMPTY, es), e), ShapeOf(Run(EMPTY, es), e));
  }

  // ---------- at-most-once visible completion ----------

  /** The rows a client sees for job `j`. */
  function OutputsOf(db: Db, j: Uuid): map<OutputType, OutputRow> {
    map t: OutputType | (j, t) in db.outputs :: db.outputs[(j, t)]
  }

  predicate IsCompleted(db: Db, j: Uuid) {
    j in db.jobs && db.jobs[j].status == Completed
  }

  /** A completion transaction for `j` that reports success. */
  predicate CompletesNow(db: Db, e: Event, j: Uuid) {
    e.Complete? && e.job == j && CompleteTakes(db, j, e.attempt)
  }

  /** How many completion transactions of `j` succeeded in the run. */
  function Completions(db: Db, es: seq<Event>, j: Uuid): nat {
    if es == [] then 0
    else
      var before := es[..|es| - 1];
      Completions(db, before, j) + if CompletesNow(Run(db, before), es[|es| - 1], j) then 1 else 0
  }

  lemma EndStatus(db: Db, e: Event)
    requires ShapeOf(db, e).End?
    ensures ShapeOf(db, e).job in Apply(db, e).jobs
    ensures Apply(db, e).jobs[ShapeOf(db, e).job].status == Completed <==> e.Complete?
  {
  }

  lemma CompletionStep(db: Db, db': Db, e: Event, j: Uuid)
    requires HasShape(db, db', ShapeOf(db, e))
    requires ShapeOf(db, e).End? ==> (db'.jobs[ShapeOf(db, e).job].status == Completed <==> e.Complete?)
    ensures IsCompleted(db', j) <==> IsCompleted(db, j) || CompletesNow(db, e, j)
    ensures !(IsCompleted(db, j) && CompletesNow(db, e, j))
  {
  }

  lemma CompletionCounts(db: Db, e: Event, j: Uuid)
    requires Inv(db)
    ensures IsCompleted(Apply(db, e), j) <==> IsCompleted(db, j) || CompletesNow(db, e, j)
    ensures !(IsCompleted(db, j) && CompletesNow(db, e, j))
  {
    StepShape(db, e);
    if ShapeOf(db, e).End? {
      EndStatus(db, e);
    }
    CompletionStep(db, Apply(db, e), e, j);
  }

  lemma ShapeKeepsCompleted(db: Db, db': Db, shape: Shape, j: Uuid)
    requires HasShape(db, db', shape) && IsCompleted(db, j)
    ensures j in db'.jobs && db'.jobs[j] == db.jobs[j]
    ensures OutputsOf(db', j) == OutputsOf(db, j)
  {
  }

  /** A completed job never changes again, nor do its visible outputs. */
  lemma CompletedIsFinalStep(db: Db, e: Event, j: Uuid)
    requires Inv(db) && IsCompleted(db, j)
    ensures j in Apply(db, e).jobs && Apply(db, e).jobs[j] == db.jobs[j]
    ensures OutputsOf(Apply(db, e), j) == OutputsOf(db, j)
  {
    StepShape(db, e);
    ShapeKeepsCompleted(db, Apply(db, e), ShapeOf(db, e), j);
  }

  /**
   In every run each job completes at most once, and it has completed exactly when its status
   says so; all its output rows then carry the completing attempt, and a job that has not
   completed has no output rows at all.
   */
  lemma {:induction false} AtMostOneCompletion(es: seq<Event>, j: Uuid)
    ensures var db := Run(EMPTY, es);
            && Completions(EMPTY, es, j) == (if IsCompleted(db, j) then 1 else 0)
            && (IsCompleted(db, j) ==>
                  forall t :: t in OutputsOf(db, j) ==> Some(OutputsOf(db, j)[t].attempt) == db.jobs[j].completed)
            && (!IsCompleted(db, j) ==> OutputsOf(db, j) == map[])
  {
    AlwaysInv(es);
    var db := Run(EMPTY, es);
    forall t | (j, t) in db.outputs
      ensures IsCompleted(db, j) && db.jobs[j].completed == Some(db.outputs[(j, t)].attempt)
    {
      assert OutputOk(db, j, t);
      assert JobOk(db, j);
    }
    if j in db.jobs {
      assert JobOk(db, j);
    }
    if es != [] {
      var before := es[..|es| - 1];
      AtMostOneCompletion(before, j);
      AlwaysInv(before);
      CompletionCounts(Run(EMPTY, before), es[|es| - 1], j);
    }
  }

  /** Once completed, a job's row and its visible outputs are the same at every later moment. */
  lemma {:induction false} CompletionIsFinal(es: seq<Event>, more: seq<Event>, j: Uuid)
    requires IsCompleted(Run(EMPTY, es), j)
    ensures var db, later := Run(EMPTY, es), Run(EMPTY, es + more);
            j in later.jobs && later.jobs[j] == db.jobs[j] && OutputsOf(later, j) == OutputsOf(db, j)
  {
    RunAppend(EMPTY, es, more);
    if more != [] {
      var n := |more| - 1;
      CompletionIsFinal(es, more[..n], j);
      RunAppend(EMPTY, es, more[..n]);
      AlwaysInv(es + more[..n]);
      CompletedIsFinalStep(Run(EMPTY, es + more[..n]), more[n], j);
    }
  }

  // ---------- stale attempts ----------

  /** `a` was claimed once, but its job no longer authorizes it. */
  predicate Stale(db: Db, a: Uuid) {
    a in db.attempts && !IsCurrent(db, db.attempts[a].job, a)
  }

  lemma StaleNotRunning(db: Db, a: Uuid)
    requires Inv(db) && Stale(db, a)
    ensures db.attempts[a].status != Running
  {
    assert AttemptOk(db, a);
  }

  lemma ShapeKeepsStale(db: Db, db': Db, shape: Shape, a: Uuid)
    requires Inv(db) && HasShape(db, db', shape) && Stale(db, a)
    ensures Stale(db', a) && Core(db'.attempts[a]) == Core(db.attempts[a])
  {
    StaleNotRunning(db, a);
    assert AttemptOk(db, a);
    assert JobOk(db, db.attempts[a].job);
    match shape
    case Quiet => assert Similar(db.attempts[a], db'.attempts[a]);
    case _ =>
  }

  lemma StaleStep(db: Db, e: Event, a: Uuid)
    requires Inv(db) && Stale(db, a)
    ensures Stale(Apply(db, e), a) && Core(Apply(db, e).attempts[a]) == Core(db.attempts[a])
  {
    StepShape(db, e);
    ShapeKeepsStale(db, Apply(db, e), ShapeOf(db, e), a);
  }

  lemma {:induction false} StaleRun(db: Db, es: seq<Event>, a: Uuid)
    requires Inv(db) && Stale(db, a)
    ensures Inv(Run(db, es)) && Stale(Run(db, es), a) && Core(Run(db, es).attempts[a]) == Core(db.attempts[a])
  {
    RunKeepsInv(db, es);
    if es != [] {
      var n := |es| - 1;
      StaleRun(db, es[..n], a);
      StaleStep(Run(db, es[..n]), es[n], a);
    }
  }

  /** Once stale, an attempt is stale, and not running, at every later moment of every run. */
  lemma StaleForever(es: seq<Event>, more: seq<Event>, a: Uuid)
    requires Stale(Run(EMPTY, es), a)
    ensures Stale(Run(EMPTY, es + more), a)
    ensures Run(EMPTY, es + more).attempts[a].status != Running
    ensures Core(Run(EMPTY, es + more).attempts[a]) == Core(Run(EMPTY, es).attempts[a])
  {
    RunAppend(EMPTY, es, more);
    AlwaysInv(es);
    StaleRun(Run(EMPTY, es), more, a);
    StaleNotRunning(Run(EMPTY, es + more), a);
  }

  /** The transactions a worker issues for the attempt it believes it holds. */
  predicate IssuedFor(e: Event, a: Uuid) {
    || (e.Renew? && e.attempt == a)
    || (e.SetPhase? && e.attempt == a)
    || (e.Complete? && e.attempt == a)
    || (e.Fail? && e.attempt == a)
  }

  /**
   Whatever the worker of a stale attempt still issues, now or at any later moment, changes
   nothing; only the attempt's own duration columns can still move.
   */
  lemma StaleAttemptIsInvisible(es: seq<Event>, more: seq<Event>, a: Uuid, e: Event)
    requires Stale(Run(EMPTY, es), a)
    ensures var db := Run(EMPTY, es + more);
            && (IssuedFor(e, a) ==> Apply(db, e) == db)
            && (e.RecordDuration? && e.attempt == a ==>
                  && a in db.attempts
                  && Apply(db, e) == db.(attempts := db.attempts[a := db.attempts[a].(
                                           durations := db.attempts[a].durations[e.field := e.ms])]))
  {
    StaleForever(es, more, a);
    var db := Run(EMPTY, es + more);
    AlwaysInv(es + more);
    forall j ensures !IsCurrent(db, j, a) {
      if j in db.jobs {
        assert JobOk(db, j);
      }
    }
  }

  /** A worker that takes a committed completion for an error and reports failure changes nothing. */
  lemma FailAfterComplete(db: Db, j: Uuid, a: Uuid, outs: seq<Output>, t: int, now: int)
    requires a in db.attempts
    ensures FailTx(CompleteTx(db, j, a, outs, t), j, a, now) == CompleteTx(db, j, a, outs, t)
  {
  }

  /**
   Two lease-pass recoveries of one attempt, with anything at all in between, charge one retry:
   the second leaves the tables as it finds them.
   */
  lemma LeaseRecoveryChargesOnce(es: seq<Event>, more: seq<Event>, j: Uuid, a: Uuid, t: int, now: int)
    requires RecoverTakes(Run(EMPTY, es), j, Some(a))
    ensures var db := Run(EMPTY, es + [Recover(j, Some(a), LeaseExpired, t)] + more);
            RecoverTx(db, j, Some(a), LeaseExpired, now) == db
  {
    var e := Recover(j, Some(a), LeaseExpired, t);
    AlwaysInv(es);
    RunAppend(EMPTY, es, [e]);
    RunOne(Run(EMPTY, es), e);
    assert JobOk(Run(EMPTY, es), j);
    assert Stale(Run(EMPTY, es + [e]), a);
    StaleForever(es + [e], more, a);
    AlwaysInv(es + [e] + more);
    var db := Run(EMPTY, es + [e] + more);
    assert j in db.jobs ==> JobOk(db, j);
  }

  // ---------- retry accounting ----------

  /** Some member of `s` carries number `n`. */
  ghost predicate Numbered(db: Db, s: set<Uuid>, n: nat) {
    exists a :: a in s && a in db.attempts && db.attempts[a].number == n
  }

  function AttemptsOf(db: Db, j: Uuid): set<Uuid> {
    set a | a in db.attempts && db.attempts[a].job == j
  }

  function SpentAttemptsOf(db: Db, j: Uuid): set<Uuid> {
    set a | a in db.attempts && db.attempts[a].job == j && Spent(db.attempts[a].status)
  }

  /** A set of attempts of one job that carries exactly the numbers 1..m has m members. */
  lemma {:induction false} CountByNumber(db: Db, j: Uuid, s: set<Uuid>, m: nat)
    requires NumbersUnique(db)
    requires forall a :: a in s ==> a in db.attempts && db.attempts[a].job == j && 1 <= db.attempts[a].number <= m
    requires forall n: nat :: 1 <= n <= m ==> Numbered(db, s, n)
    ensures |s| == m
  {
    if m == 0 {
      assert s == {};
    } else {
      assert Numbered(db, s, m);
      var last :| last in s && db.attempts[last].number == m;
      var rest := s - {last};
      forall n: nat | 1 <= n <= m - 1 ensures Numbered(db, rest, n) {
        assert Numbered(db, s, n);
        var a :| a in s && db.attempts[a].number == n;
        assert a in rest;
      }
      CountByNumber(db, j, rest, m - 1);
    }
  }

  lemma CountAttempts(db: Db, j: Uuid)
    requires Inv(db) && j in db.jobs
    ensures |AttemptsOf(db, j)| == AttemptsSoFar(db.jobs[j])
  {
    var m := AttemptsSoFar(db.jobs[j]);
    forall a | a in AttemptsOf(db, j) ensures 1 <= db.attempts[a].number <= m {
      assert AttemptOk(db, a);
    }
    forall n: nat | 1 <= n <= m ensures Numbered(db, AttemptsOf(db, j), n) {
      assert HasNumber(db, j, n);
      var a :| a in db.attempts && db.attempts[a].job == j && db.attempts[a].number == n;
      assert a in AttemptsOf(db, j);
    }
    CountByNumber(db, j, AttemptsOf(db, j), m);
  }

  lemma CountSpent(db: Db, j: Uuid)
    requires Inv(db) && j in db.jobs
    ensures |SpentAttemptsOf(db, j)| == db.jobs[j].retryCount + (if db.jobs[j].status == Dead then 1 else 0)
  {
    var m := db.jobs[j].retryCount + if db.jobs[j].status == Dead then 1 else 0;
    forall a | a in SpentAttemptsOf(db, j) ensures 1 <= db.attempts[a].number <= m {
      assert AttemptOk(db, a);
    }
    forall n: nat | 1 <= n <= m ensures Numbered(db, SpentAttemptsOf(db, j), n) {
      assert HasNumber(db, j, n);
      var a :| a in db.attempts && db.attempts[a].job == j && db.attempts[a].number == n;
      assert AttemptOk(db, a);
      assert a in SpentAttemptsOf(db, j);
    }
    CountByNumber(db, j, SpentAttemptsOf(db, j), m);
  }

  /**
   For every job of every run: the retry counter, plus one if the job is dead, is the number of
   its failed and expired attempts; its attempts are numbered 1..k without gap or repetition,
   where k is the retry counter plus one unless the job is queued; the budget is never exceeded.
   The design's reading of the counter, the number of failed or expired attempts, is thus right
   exactly for the jobs that are not dead, and a job is dead exactly when it has spent one attempt
   more than its budget of retries.
   */
  lemma ExactRetryAccounting(es: seq<Event>, j: Uuid)
    requires j in Run(EMPTY, es).jobs
    ensures var db := Run(EMPTY, es);
            var job := db.jobs[j];
            var k := job.retryCount + if job.status == Queued then 0 else 1;
            && job.retryCount <= job.maxRetries
            && |SpentAttemptsOf(db, j)| == job.retryCount + (if job.status == Dead then 1 else 0)
            && (|SpentAttemptsOf(db, j)| == job.retryCount <==> job.status != Dead)
            && (|SpentAttemptsOf(db, j)| == job.maxRetries + 1 <==> job.status == Dead)
            && |AttemptsOf(db, j)| == k
            && (forall n: nat :: HasNumber(db, j, n) <==> 1 <= n <= k)
            && NumbersUnique(db)
  {
    AlwaysInv(es);
    var db := Run(EMPTY, es);
    CountAttempts(db, j);
    CountSpent(db, j);
    assert JobOk(db, j);
    forall n: nat | HasNumber(db, j, n) ensures 1 <= n <= AttemptsSoFar(db.jobs[j]) {
      var a :| a in db.attempts && db.attempts[a].job == j && db.attempts[a].number == n;
      assert AttemptOk(db, a);
    }
  }

  lemma Extend(es: seq<Event>, e: Event) returns (longer: seq<Event>)
    ensures Run(EMPTY, longer) == Apply(Run(EMPTY, es), e)
  {
    RunSnoc(EMPTY, es, e);
    longer := es + [e];
  }

  /** A dead job that spent one attempt and still shows no retry. */
  lemma DeadJobUndercounts() returns (es: seq<Event>)
    ensures var db := Run(EMPTY, es);
            && 10 in db.jobs && db.jobs[10].status == Dead && db.jobs[10].retryCount == 0
            && 100 in SpentAttemptsOf(db, 10)
  {
    es := OneRunningAttempt();
    es := Extend(es, Fail(10, 100, 5));
  }

  /** A job without retries, being processed for the first time. */
  lemma OneRunningAttempt() returns (es: seq<Event>)
    ensures Run(EMPTY, es) == Db(map[10 := Job(Processing, 0, 0, 0, 0, 0, Some(100), None, None)],
                                 map[100 := Attempt(10, 1, 1, Running, 0, 0, 60, None, Claiming, None, map[])],
                                 map[],
                                 map[1 := WorkerRow(Idle, None, 0)])
  {
    es := Extend([], Register(1, 0));
    es := Extend(es, Create(10, 0, 0, 0));
    assert Run(EMPTY, es).attempts == map[];
    es := Extend(es, Claim(10, 100, 1, 60, 0));
  }

  // ---------- the worker-death pass ----------

  /**
   Whose attempt the death pass retires. The code passes no attempt id, so the pass touches only
   attempts of worker `w` exactly when the current attempt of the job it names, if there is one,
   is an attempt of `w`; it touches nothing exactly when the job is not being processed.
   */
  lemma DeathPassScope(es: seq<Event>, j: Uuid, w: Uuid, now: int)
    ensures var db := Run(EMPTY, es);
            var db' := RecoverTx(db, j, None, WorkerDeath, now);
            && db'.attempts.Keys == db.attempts.Keys
            && ((forall a :: a in db.attempts && db'.attempts[a] != db.attempts[a] ==> db.attempts[a].worker == w)
                <==>
                (j in db.jobs && db.jobs[j].current.Some? && db.jobs[j].current.value in db.attempts ==>
                  db.attempts[db.jobs[j].current.value].worker == w))
            && (db' == db <==> j !in db.jobs || db.jobs[j].status != Processing)
  {
    AlwaysInv(es);
    var db := Run(EMPTY, es);
    if j in db.jobs {
      assert JobOk(db, j);
      if db.jobs[j].current.Some? {
        var a := db.jobs[j].current.value;
        assert RecoverTx(db, j, None, WorkerDeath, now).attempts[a].status != db.attempts[a].status;
      }
    }
  }

  /** What the death pass does to the job it names, in a reachable database. */
  lemma DeathPassOnJob(db: Db, j: Uuid, now: int)
    requires j in db.jobs && JobOk(db, j)
    ensures var db' := RecoverTx(db, j, None, WorkerDeath, now);
            var again := db.jobs[j].status == Processing;
            && j in db'.jobs
            && (db' == db <==> !again)
            && db'.jobs[j] == if again then Retire(db.jobs[j], now) else db.jobs[j]
  {
  }

  lemma DeathPassSpends(db: Db, j: Uuid, now: int)
    requires Inv(db) && j in db.jobs
    ensures |SpentAttemptsOf(RecoverTx(db, j, None, WorkerDeath, now), j)| ==
              |SpentAttemptsOf(db, j)| + (if db.jobs[j].status == Processing then 1 else 0)
  {
    var db' := Apply(db, Recover(j, None, WorkerDeath, now));
    assert JobOk(db, j);
    DeathPassOnJob(db, j, now);
    CountSpent(db, j);
    StepKeepsInv(db, Recover(j, None, WorkerDeath, now));
    CountSpent(db', j);
  }

  /**
   The design asks that marking a worker dead consumes no further retry once the attempt it held
   has been recovered. For a worker `w` whose attempt `a` of job `j` has ended, at any later moment
   of any run, the death pass respects that exactly when the job is not being processed again, by
   whichever worker, `w` included: otherwise it spends one more attempt, as a retry while there are
   retries left and as the job's death when there are none.
   */
  lemma DeathPassAfterRecovery(es: seq<Event>, more: seq<Event>, j: Uuid, w: Uuid, a: Uuid, now: int)
    requires var db := Run(EMPTY, es); Stale(db, a) && db.attempts[a].job == j && db.attempts[a].worker == w
    ensures var db := Run(EMPTY, es + more);
            var db' := RecoverTx(db, j, None, WorkerDeath, now);
            && j in db.jobs && j in db'.jobs
            && var again := db.jobs[j].status == Processing;
            && (db' == db <==> !again)
            && |SpentAttemptsOf(db', j)| == |SpentAttemptsOf(db, j)| + (if again then 1 else 0)
            && (db'.jobs[j].retryCount == db.jobs[j].retryCount + 1 <==> again && RetriesLeft(db.jobs[j]))
            && (db'.jobs[j].status == Dead <==> db.jobs[j].status == Dead || (again && !RetriesLeft(db.jobs[j])))
  {
    StaleForever(es, more, a);
    AlwaysInv(es + more);
    var db := Run(EMPTY, es + more);
    assert db.attempts[a].job == j;
    assert AttemptOk(db, a) && JobOk(db, j);
    DeathPassOnJob(db, j, now);
    DeathPassSpends(db, j, now);
  }

  // ---------- bounded lifecycle ----------

  function Rank(status: JobStatus): nat {
    match status
    case Queued => 2
    case Processing => 1
    case Completed => 0
    case Dead => 0
  }

  /** What is left of a job's life. */
  function Remaining(job: Job): int {
    2 * (job.maxRetries - job.retryCount) + Rank(job.status)
  }

  predicate Moves(db: Db, e: Event, j: Uuid) {
    j in db.jobs && j in Apply(db, e).jobs && Apply(db, e).jobs[j].status != db.jobs[j].status
  }

  /** How often the status of job `j` changed after its creation. */
  function Transitions(db: Db, es: seq<Event>, j: Uuid): nat {
    if es == [] then 0
    else
      var before := es[..|es| - 1];
      Transitions(db, before, j) + if Moves(Run(db, before), es[|es| - 1], j) then 1 else 0
  }

  /** Each status change uses up exactly one unit; nothing ever leaves `Completed` or `Dead`. */
  lemma MoveUsesOne(db: Db, db': Db, j: Uuid)
    requires JobsMoveLegally(db, db') && j in db.jobs
    ensures Remaining(db'.jobs[j]) == Remaining(db.jobs[j]) - (if db'.jobs[j].status != db.jobs[j].status then 1 else 0)
    ensures Rank(db.jobs[j].status) == 0 ==> db'.jobs[j].status == db.jobs[j].status
  {
  }

  /**
   In every run a job makes exactly as many transitions as `Remaining` has gone down from
   2 * maxRetries + 2, hence at most 2 * maxRetries + 2 of them.
   */
  lemma {:induction false} BoundedLifecycle(es: seq<Event>, j: Uuid)
    ensures var db := Run(EMPTY, es);
            if j in db.jobs
            then Transitions(EMPTY, es, j) == 2 * db.jobs[j].maxRetries + 2 - Remaining(db.jobs[j])
                 && Transitions(EMPTY, es, j) <= 2 * db.jobs[j].maxRetries + 2
            else Transitions(EMPTY, es, j) == 0
  {
    AlwaysInv(es);
    if j in Run(EMPTY, es).jobs {
      assert JobOk(Run(EMPTY, es), j);
    }
    if es != [] {
      var before, e := es[..|es| - 1], es[|es| - 1];
      BoundedLifecycle(before, j);
      OneLegalEdge(before, e);
      if j in Run(EMPTY, before).jobs {
        MoveUsesOne(Run(EMPTY, before), Run(EMPTY, es), j);
      }
    }
  }

  // ---------- the output set readers see ----------

  /** Some output of `outs` has type `t`. */
  predicate Includes(outs: seq<Output>, t: OutputType) {
    exists i :: 0 <= i < |outs| && outs[i].kind == t
  }

  /** Every output type occurs among `outs`. */
  ghost predicate CoversAllTypes(outs: seq<Output>) {
    forall t: OutputType :: Includes(outs, t)
  }

  /** Workers complete with the outputs of `runFFmpegJobs`, which cover all types. */
  ghost predicate CompletesInFull(es: seq<Event>) {
    forall i :: 0 <= i < |es| && es[i].Complete? ==> CoversAllTypes(es[i].outs)
  }

  /** A completed job has one row for every type, in every run. */
  lemma {:induction false} CompletedHasAllOutputs(es: seq<Event>, j: Uuid)
    requires CompletesInFull(es) && IsCompleted(Run(EMPTY, es), j)
    ensures forall t: OutputType :: t in OutputsOf(Run(EMPTY, es), j)
  {
    var before, e := es[..|es| - 1], es[|es| - 1];
    var db := Run(EMPTY, before);
    AlwaysInv(before);
    assert CompletesInFull(before);
    CompletionCounts(db, e, j);
    if IsCompleted(db, j) {
      CompletedHasAllOutputs(before, j);
      CompletedIsFinalStep(db, e, j);
    } else {
      assert CoversAllTypes(e.outs);
      forall t: OutputType ensures (j, t) in Apply(db, e).outputs {
        assert Includes(e.outs, t);
        UpsertKeys(db.outputs, j, e.attempt, e.outs, j, t);
      }
    }
  }

  /**
   The outputs endpoint reads the job, and later, after any number of other transactions, its
   outputs. If the first read saw a completed job, the second returns the complete set of the
   attempt that the first read named.
   */
  lemma TwoQueryReader(es: seq<Event>, between: seq<Event>, j: Uuid)
    requires CompletesInFull(es) && IsCompleted(Run(EMPTY, es), j)
    ensures var seen, rows := Run(EMPTY, es).jobs[j], OutputsOf(Run(EMPTY, es + between), j);
            forall t: OutputType :: t in rows && Some(rows[t].attempt) == seen.completed
  {
    CompletedHasAllOutputs(es, j);
    CompletionIsFinal(es, between, j);
    AtMostOneCompletion(es, j);
  }
}
