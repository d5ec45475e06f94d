/**
 The tables as live objects. Each method runs the SQL statements of one transaction in order
 and is proved to have exactly the effect of the transaction function of module `Database`.
 */
module Postgres {
  import opened Common
  import opened Database

  datatype ClaimResult = Claimed | NotClaimed | Rejected

  class Store {
    var jobs: map<Uuid, Job>
    var attempts: map<Uuid, Attempt>
    var outputs: map<(Uuid, OutputType), OutputRow>
    var workers: map<Uuid, WorkerRow>

    ghost function Tables(): Db
      reads this
    {
      Db(jobs, attempts, outputs, workers)
    }

    constructor ()
      ensures Tables() == EMPTY
    {
      jobs, attempts, outputs, workers := map[], map[], map[], map[];
    }

    method CreateQueuedJob(j: Uuid, maxRetries: int, priority: int, now: int) returns (ok: bool)
      modifies this
      ensures ok <==> j !in old(jobs) && 0 <= maxRetries
      ensures ok ==>
                && j in jobs && jobs[j].status == Queued && jobs[j].retryCount == 0
                && jobs[j].priority == priority && jobs[j].maxRetries == maxRetries
                && jobs[j].queueEnteredAt == jobs[j].updatedAt == now && jobs[j].current == None
      ensures Tables() == CreateTx(old(Tables()), j, maxRetries, priority, now)
    {
      ok := j !in jobs && maxRetries >= 0;
      if ok {
        jobs := jobs[j := Job(Queued, 0, maxRetries, priority, now, now, None, None, None)];
      }
    }

    method MarkProcessing(j: Uuid, a: Uuid, w: Uuid, ttl: nat, now: int) returns (r: ClaimResult)
      modifies this
      ensures r == Claimed <==> ClaimTakes(old(Tables()), j, a, w)
      ensures r == NotClaimed <==> j !in old(jobs) || old(jobs)[j].status != Queued
      ensures r == Claimed ==>
                && a in attempts && attempts[a].job == j && attempts[a].worker == w && attempts[a].status == Running
                && attempts[a].lastHeartbeat == now && attempts[a].leaseExpiresAt == now + ttl
      ensures Tables() == ClaimTx(old(Tables()), j, a, w, ttl, now)
    {
      if j !in jobs || jobs[j].status != Queued {
        return NotClaimed;
      }
      var number := jobs[j].retryCount + 1;
      var clash := exists b :: b in attempts && attempts[b].job == j && attempts[b].number == number;
      if a in attempts || w !in workers || clash {
        return Rejected;
      }
      attempts := attempts[a := Attempt(j, number, w, Running, jobs[j].queueEnteredAt, now, now + ttl,
                                        None, Claiming, None, map[])];
      if jobs[j].current == None {
        jobs := jobs[j := jobs[j].(status := Processing, current := Some(a), updatedAt := now)];
      }
      r := Claimed;
    }

    method RenewAttemptLease(a: Uuid, ttl: nat, now: int) returns (updated: bool)
      modifies this
      ensures updated == RenewTakes(old(Tables()), a)
      ensures updated ==> a in attempts && attempts[a].lastHeartbeat == now && attempts[a].leaseExpiresAt == now + ttl
      ensures Tables() == RenewTx(old(Tables()), a, ttl, now)
    {
      updated := false;
      if a in attempts && attempts[a].status == Running {
        var j := attempts[a].job;
        if j in jobs && jobs[j].status == Processing && jobs[j].current == Some(a) {
          attempts := attempts[a := attempts[a].(lastHeartbeat := now, leaseExpiresAt := now + ttl)];
          updated := true;
        }
      }
    }

    /** `stale` is the `errStaleAttempt` outcome; then nothing was published. */
    method CompleteJob(j: Uuid, a: Uuid, outs: seq<Output>, now: int) returns (stale: bool)
      modifies this
      ensures stale <==> !CompleteTakes(old(Tables()), j, a)
      ensures Tables() == CompleteTx(old(Tables()), j, a, outs, now)
    {
      if !(j in jobs && jobs[j].status == Processing && jobs[j].current == Some(a) && a in attempts) {
        return true;
      }
      jobs := jobs[j := jobs[j].(status := Completed, completed := Some(a), completedAt := Some(now),
                                 current := None, updatedAt := now)];
      for i := 0 to |outs|
        invariant jobs == CompleteTx(old(Tables()), j, a, outs, now).jobs
        invariant attempts == old(attempts) && workers == old(workers)
        invariant outputs == Upsert(old(outputs), j, a, outs[..i])
      {
        assert outs[..i + 1][..i] == outs[..i];
        outputs := outputs[(j, outs[i].kind) := OutputRow(a, outs[i].url, outs[i].size)];
      }
      assert outs[..|outs|] == outs;
      if attempts[a].status == Running {
        attempts := attempts[a := attempts[a].(status := Succeeded, finishedAt := Some(now), phase := Finished)];
      }
      stale := false;
    }

    /** Returns the priority under which the caller must enqueue the job again, if at all. */
    method HandleFailure(j: Uuid, a: Uuid, now: int) returns (requeue: Option<int>)
      modifies this
      ensures Tables() == FailTx(old(Tables()), j, a, now)
      ensures requeue == if IsCurrent(old(Tables()), j, a) && RetriesLeft(old(jobs)[j])
                         then Some(old(jobs)[j].priority) else None
    {
      requeue := None;
      if j !in jobs || jobs[j].current != Some(a) || jobs[j].status != Processing {
        return;
      }
      if a in attempts && attempts[a].status == Running {
        attempts := attempts[a := attempts[a].(status := Failed, finishedAt := Some(now),
                                               category := Some(ProcessingFailure))];
      }
      var job := jobs[j];
      if job.retryCount >= job.maxRetries {
        jobs := jobs[j := job.(status := Dead, current := None, updatedAt := now)];
      } else {
        jobs := jobs[j := job.(retryCount := job.retryCount + 1, status := Queued, current := None,
                               queueEnteredAt := now, updatedAt := now)];
        requeue := Some(job.priority);
      }
    }

    /** The transaction of the reaper's `requeueJob`; `expected == None` is the empty attempt id. */
    method RetireCurrent(j: Uuid, expected: Option<Uuid>, reason: FailureCategory, now: int)
      returns (requeue: Option<int>)
      modifies this
      ensures Tables() == RecoverTx(old(Tables()), j, expected, reason, now)
      ensures requeue == if RecoverTakes(old(Tables()), j, expected) && RetriesLeft(old(jobs)[j])
                         then Some(old(jobs)[j].priority) else None
    {
      requeue := None;
      if j !in jobs {
        return;
      }
      var job := jobs[j];
      if job.status != Processing || job.current == None || (expected != None && job.current != expected) {
        return;
      }
      var a := job.current.value;
      if a in attempts && attempts[a].status == Running {
        attempts := attempts[a := attempts[a].(status := Expired, finishedAt := Some(now), category := Some(reason))];
      }
      if job.retryCount >= job.maxRetries {
        jobs := jobs[j := job.(status := Dead, current := None, updatedAt := now)];
        return;
      }
      jobs := jobs[j := job.(retryCount := job.retryCount + 1, status := Queued, current := None,
                             queueEnteredAt := now, updatedAt := now)];
      requeue := Some(job.priority);
    }

    method SetWorkerBusy(w: Uuid, j: Uuid, now: int)
      modifies this
      ensures Tables() == BusyTx(old(Tables()), w, j, now)
      ensures w in old(workers) && j in jobs ==> workers[w] == WorkerRow(Busy, Some(j), now)
    {
      if w in workers && j in jobs {
        workers := workers[w := WorkerRow(Busy, Some(j), now)];
      }
    }

    method SetWorkerIdle(w: Uuid, now: int)
      modifies this
      ensures Tables() == IdleTx(old(Tables()), w, now)
      ensures w in old(workers) ==> workers[w] == WorkerRow(Idle, None, now)
    {
      if w in workers {
        workers := workers[w := WorkerRow(Idle, None, now)];
      }
    }

    /** What everybody else commits meanwhile. */
    method OthersCommit(es: seq<Event>)
      modifies this
      ensures Tables() == Run(old(Tables()), es)
    {
      for i := 0 to |es|
        invariant Tables() == Run(old(Tables()), es[..i])
      {
        assert es[..i + 1][..i] == es[..i];
        var db := Apply(Db(jobs, attempts, outputs, workers), es[i]);
        jobs, attempts, outputs, workers := db.jobs, db.attempts, db.outputs, db.workers;
      }
      assert es[..|es|] == es;
    }

    method MarkWorkerLost(w: Uuid)
      modifies this
      ensures Tables() == MarkLostTx(old(Tables()), w)
      ensures w in old(workers) ==>
                workers[w].status == Lost && workers[w].currentJob == None
                && workers[w].lastHeartbeat == old(workers)[w].lastHeartbeat
    {
      if w in workers {
        workers := workers[w := workers[w].(status := Lost, currentJob := None)];
      }
    }
  }
}
