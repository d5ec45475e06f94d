/**
 The code that runs the transactions: the API's submission and the worker's life of one job, from
 its claim over the lease renewals to its report, with arbitrary transactions of everybody else
 committing in between.
 */
module Actors {
  import opened Common
  import opened Database
  import opened Invariant
  import opened Lifecycle
  import opened PriorityQueue
  import Postgres

  class Api {
    const db: Postgres.Store
    const redis: RedisQueue
    const maxRetries: int

    constructor (db: Postgres.Store, redis: RedisQueue, maxRetries: int)
      ensures this.db == db && this.redis == redis && this.maxRetries == maxRetries
    {
      this.db, this.redis, this.maxRetries := db, redis, maxRetries;
    }

    /**
     The row is committed before the queue hears of the job; a queue that refuses the entry does
     not undo the submission, and a rejected row leaves the queue alone.
     */
    method Submit(j: Uuid, priority: int, now: int) returns (accepted: bool)
      modifies db, redis
      ensures accepted == CreateTakes(old(db.Tables()), j, maxRetries)
      ensures db.Tables() == CreateTx(old(db.Tables()), j, maxRetries, priority, now)
      ensures redis.State() == if accepted then Enqueue(old(redis.State()), j, priority) else old(redis.State())
      ensures accepted ==>
                && j in db.jobs && db.jobs[j].status == Queued && db.jobs[j].retryCount == 0
                && db.jobs[j].priority == priority && db.jobs[j].maxRetries == maxRetries
      ensures accepted && ValidPriority(priority) && j !in old(redis.State()).members ==>
                Tier(redis.State(), priority) == Tier(old(redis.State()), priority) + [j]
      ensures accepted && ValidPriority(priority) ==> j in redis.State().members
    {
      accepted := db.CreateQueuedJob(j, maxRetries, priority, now);
      if accepted {
        var _ := redis.Push(j, priority);
      }
    }
  }

  // ---------- the life of one attempt ----------

  /** A tick of the lease ticker, and what the others committed since the previous one. */
  datatype Beat = Beat(others: seq<Event>, now: int)

  /** The tables, and whether the worker still believes that it holds its lease. */
  datatype Lease = Lease(db: Db, held: bool)

  /** Renewals go on until one of them finds the lease lost. */
  function Renewals(db: Db, a: Uuid, beats: seq<Beat>, ttl: nat): Lease {
    if beats == [] then Lease(db, true)
    else
      var n := |beats| - 1;
      var before := Renewals(db, a, beats[..n], ttl);
      var seen := Run(before.db, beats[n].others);
      if before.held then Lease(RenewTx(seen, a, ttl, beats[n].now), RenewTakes(seen, a))
      else before.(db := seen)
  }

  /** The tables at the moment of the report. */
  function AtReport(db: Db, w: Uuid, j: Uuid, a: Uuid, ttl: nat, now: int, beats: seq<Beat>, last: seq<Event>): Lease {
    var claimed := ClaimTx(db, j, a, w, ttl, now);
    var lease := Renewals(BusyTx(claimed, w, j, now), a, beats, ttl);
    lease.(db := Run(lease.db, last))
  }

  /** Success is reported by a worker that made its outputs and knows of no lost lease. */
  function Report(lease: Lease, j: Uuid, a: Uuid, made: Option<seq<Output>>, end: int): Db {
    if lease.held && made.Some? then CompleteTx(lease.db, j, a, made.value, end) else FailTx(lease.db, j, a, end)
  }

  datatype Outcome = NotClaimed | ClaimError | Done | Superseded | Errored

  class Worker {
    const id: Uuid
    const db: Postgres.Store
    const redis: RedisQueue
    const leaseTtl: nat

    constructor (id: Uuid, db: Postgres.Store, redis: RedisQueue, leaseTtl: nat)
      ensures this.id == id && this.db == db && this.redis == redis && this.leaseTtl == leaseTtl
    {
      this.id, this.db, this.redis, this.leaseTtl := id, db, redis, leaseTtl;
    }

    method RenewLeaseUntilDone(a: Uuid, beats: seq<Beat>) returns (held: bool)
      modifies db
      ensures Lease(db.Tables(), held) == Renewals(old(db.Tables()), a, beats, leaseTtl)
    {
      held := true;
      for i := 0 to |beats|
        invariant Lease(db.Tables(), held) == Renewals(old(db.Tables()), a, beats[..i], leaseTtl)
      {
        assert beats[..i + 1][..i] == beats[..i];
        db.OthersCommit(beats[i].others);
        if held {
          held := db.RenewAttemptLease(a, leaseTtl, beats[i].now);
        }
      }
      assert beats[..|beats|] == beats;
    }

    /** Commit the failure first, then tell the queue if the job was put back. */
    method ReportFailure(j: Uuid, a: Uuid, end: int)
      modifies db, redis
      ensures db.Tables() == FailTx(old(db.Tables()), j, a, end)
      ensures redis.State() == if IsCurrent(old(db.Tables()), j, a) && RetriesLeft(old(db.jobs)[j])
                               then Enqueue(old(redis.State()), j, old(db.jobs)[j].priority) else old(redis.State())
    {
      var requeue := db.HandleFailure(j, a, end);
      if requeue.Some? {
        var _ := redis.Push(j, requeue.value);
      }
    }

    /**
     `made` is what transcoding and uploading came to, `last` what the others committed between
     the last renewal and the report.
     */
    method ProcessJob(j: Uuid, a: Uuid, now: int, beats: seq<Beat>, last: seq<Event>, made: Option<seq<Output>>,
                      end: int)
      returns (outcome: Outcome)
      modifies db, redis
      ensures outcome == NotClaimed || outcome == ClaimError <==> !ClaimTakes(old(db.Tables()), j, a, id)
      ensures !ClaimTakes(old(db.Tables()), j, a, id) ==>
                db.Tables() == old(db.Tables()) && redis.State() == old(redis.State())
      ensures ClaimTakes(old(db.Tables()), j, a, id) ==>
                var lease := AtReport(old(db.Tables()), id, j, a, leaseTtl, now, beats, last);
                && db.Tables() == IdleTx(Report(lease, j, a, made, end), id, end)
                && (id in lease.db.workers ==>
                      id in db.workers && db.workers[id] == WorkerRow(Idle, None, end))
                && (outcome == Errored <==> !lease.held || made.None?)
                && (outcome == Done <==> lease.held && made.Some? && CompleteTakes(lease.db, j, a))
                && redis.State() ==
                     if outcome == Errored && IsCurrent(lease.db, j, a) && RetriesLeft(lease.db.jobs[j])
                     then Enqueue(old(redis.State()), j, lease.db.jobs[j].priority) else old(redis.State())
    {
      var claim := db.MarkProcessing(j, a, id, leaseTtl, now);
      if claim != Postgres.Claimed {
        return if claim == Postgres.NotClaimed then NotClaimed else ClaimError;
      }
      db.SetWorkerBusy(id, j, now);
      var held := RenewLeaseUntilDone(a, beats);
      db.OthersCommit(last);
      if held && made.Some? {
        var stale := db.CompleteJob(j, a, made.value, end);
        outcome := if stale then Superseded else Done;
      } else {
        ReportFailure(j, a, end);
        outcome := Errored;
      }
      db.SetWorkerIdle(id, end);
    }
  }

  // ---------- what the report means ----------

  lemma LostLease(db: Db, a: Uuid)
    requires Inv(db) && a in db.attempts && !RenewTakes(db, a)
    ensures Stale(db, a)
  {
    assert AttemptOk(db, a);
  }

  lemma AttemptStays(db: Db, e: Event, a: Uuid)
    requires a in db.attempts
    ensures a in Apply(db, e).attempts
  {
  }

  lemma {:induction false} AttemptsLast(db: Db, es: seq<Event>, a: Uuid)
    requires a in db.attempts
    ensures a in Run(db, es).attempts
  {
    if es != [] {
      AttemptsLast(db, es[..|es| - 1], a);
      AttemptStays(Run(db, es[..|es| - 1]), es[|es| - 1], a);
    }
  }

  /** A worker that finds its lease lost has lost it for good. */
  lemma {:induction false} LostIsStale(db: Db, a: Uuid, beats: seq<Beat>, ttl: nat)
    requires Inv(db) && a in db.attempts
    ensures var lease := Renewals(db, a, beats, ttl);
            Inv(lease.db) && a in lease.db.attempts && (!lease.held ==> Stale(lease.db, a))
  {
    if beats != [] {
      var n := |beats| - 1;
      LostIsStale(db, a, beats[..n], ttl);
      var before := Renewals(db, a, beats[..n], ttl);
      var seen := Run(before.db, beats[n].others);
      RunKeepsInv(before.db, beats[n].others);
      AttemptsLast(before.db, beats[n].others, a);
      if !before.held {
        StaleRun(before.db, beats[n].others, a);
      } else if RenewTakes(seen, a) {
        StepKeepsInv(seen, Renew(a, ttl, beats[n].now));
      } else {
        LostLease(seen, a);
      }
    }
  }

  lemma ReportTime(db: Db, w: Uuid, j: Uuid, a: Uuid, ttl: nat, now: int, beats: seq<Beat>, last: seq<Event>)
    requires Inv(db) && ClaimTakes(db, j, a, w)
    ensures var lease := AtReport(db, w, j, a, ttl, now, beats, last);
            Inv(lease.db) && (!lease.held ==> Stale(lease.db, a))
  {
    var busy := BusyTx(ClaimTx(db, j, a, w, ttl, now), w, j, now);
    StepKeepsInv(db, Claim(j, a, w, ttl, now));
    StepKeepsInv(ClaimTx(db, j, a, w, ttl, now), SetBusy(w, j, now));
    LostIsStale(busy, a, beats, ttl);
    var lease := Renewals(busy, a, beats, ttl);
    RunKeepsInv(lease.db, last);
    if !lease.held {
      StaleRun(lease.db, last, a);
    }
  }

  lemma StaleNotCurrent(db: Db, j: Uuid, a: Uuid)
    requires Inv(db) && Stale(db, a)
    ensures !IsCurrent(db, j, a)
  {
    assert j in db.jobs ==> JobOk(db, j);
  }

  /** A success report of the current attempt completes the job with exactly the outputs made. */
  lemma SuccessReport(db: Db, j: Uuid, a: Uuid, outs: seq<Output>, end: int)
    requires Inv(db) && IsCurrent(db, j, a)
    ensures var db' := CompleteTx(db, j, a, outs, end);
            && IsCompleted(db', j) && db'.jobs[j].completed == Some(a)
            && a in db'.attempts && db'.attempts[a].status == Succeeded
            && (forall t :: t in OutputsOf(db', j) <==> Includes(outs, t))
  {
    assert JobOk(db, j);
    var db' := CompleteTx(db, j, a, outs, end);
    forall t ensures t in OutputsOf(db', j) <==> Includes(outs, t) {
      UpsertKeys(db.outputs, j, a, outs, j, t);
      assert (j, t) in db.outputs ==> OutputOk(db, j, t);
    }
  }

  lemma FailureReport(db: Db, j: Uuid, a: Uuid, end: int)
    requires j in db.jobs && JobOk(db, j) && IsCurrent(db, j, a)
    ensures var db' := FailTx(db, j, a, end);
            && a in db'.attempts && db'.attempts[a].status == Failed
            && j in db'.jobs && db'.jobs[j].status == (if RetriesLeft(db.jobs[j]) then Queued else Dead)
  {
  }

  /**
   What a worker's report does, whatever the others committed while it worked. If its attempt is
   no longer current, nothing: in particular if it has found its lease lost. Otherwise success
   completes the job with one row for each type of output made, and failure ends the attempt and
   puts the job back or lets it die.
   */
  lemma ReportMeans(db: Db, w: Uuid, j: Uuid, a: Uuid, ttl: nat, now: int, beats: seq<Beat>, last: seq<Event>,
                    made: Option<seq<Output>>, end: int)
    requires Inv(db) && ClaimTakes(db, j, a, w)
    ensures var lease := AtReport(db, w, j, a, ttl, now, beats, last);
            var db' := Report(lease, j, a, made, end);
            && Inv(lease.db)
            && (!lease.held ==> !IsCurrent(lease.db, j, a))
            && if !IsCurrent(lease.db, j, a) then db' == lease.db
               else if made.Some? then
                 && IsCompleted(db', j) && db'.jobs[j].completed == Some(a)
                 && a in db'.attempts && db'.attempts[a].status == Succeeded
                 && (forall t :: t in OutputsOf(db', j) <==> Includes(made.value, t))
               else
                 && a in db'.attempts && db'.attempts[a].status == Failed
                 && j in db'.jobs && db'.jobs[j].status == (if RetriesLeft(lease.db.jobs[j]) then Queued else Dead)
  {
    ReportTime(db, w, j, a, ttl, now, beats, last);
    var lease := AtReport(db, w, j, a, ttl, now, beats, last);
    if !lease.held {
      StaleNotCurrent(lease.db, j, a);
    }
    if IsCurrent(lease.db, j, a) {
      assert JobOk(lease.db, j);
      if made.Some? {
        SuccessReport(lease.db, j, a, made.value, end);
      } else {
        FailureReport(lease.db, j, a, end);
      }
    }
  }

  /** Nobody else commits anything. */
  ghost predicate Undisturbed(beats: seq<Beat>) {
    forall i :: 0 <= i < |beats| ==> beats[i].others == []
  }

  lemma {:induction false} UndisturbedRenewals(db: Db, j: Uuid, a: Uuid, beats: seq<Beat>, ttl: nat)
    requires Undisturbed(beats) && IsCurrent(db, j, a)
    requires a in db.attempts && db.attempts[a].job == j && db.attempts[a].status == Running
    ensures var lease := Renewals(db, a, beats, ttl);
            && lease.held && IsCurrent(lease.db, j, a) && lease.db.workers == db.workers
            && a in lease.db.attempts && lease.db.attempts[a].job == j && lease.db.attempts[a].status == Running
            && lease.db.attempts[a].worker == db.attempts[a].worker
            && lease.db.attempts[a].leaseExpiresAt ==
                 if beats == [] then db.attempts[a].leaseExpiresAt else beats[|beats| - 1].now + ttl
  {
    if beats != [] {
      UndisturbedRenewals(db, j, a, beats[..|beats| - 1], ttl);
    }
  }

  /**
   A worker that nobody interferes with shows itself at work on the job, keeps its lease, which
   ends one TTL after its claim or last renewal, and reports for the current attempt.
   */
  lemma UndisturbedWorker(db: Db, w: Uuid, j: Uuid, a: Uuid, ttl: nat, now: int, beats: seq<Beat>)
    requires Inv(db) && ClaimTakes(db, j, a, w) && Undisturbed(beats)
    ensures var lease := AtReport(db, w, j, a, ttl, now, beats, []);
            && lease.held && IsCurrent(lease.db, j, a)
            && w in lease.db.workers && lease.db.workers[w] == WorkerRow(Busy, Some(j), now)
            && a in lease.db.attempts && lease.db.attempts[a].worker == w
            && lease.db.attempts[a].leaseExpiresAt == (if beats == [] then now else beats[|beats| - 1].now) + ttl
  {
    ClaimAlwaysTakesEffect(db, j, a, w, ttl, now);
    var claimed := ClaimTx(db, j, a, w, ttl, now);
    UndisturbedRenewals(BusyTx(claimed, w, j, now), j, a, beats, ttl);
  }
}
