/**
 Processing leases over time: what the lease pass of a reaper can select, in every run of the
 system with any number of overlapping sweeps.
 */
module Leases {
  import opened Common
  import opened Database
  import opened Invariant
  import opened Lifecycle
  import opened System
  import opened Publishing
  import Sweep

  /** The step sets the lease of attempt `a` to one TTL from now. */
  ghost predicate Touches(s: Sys, step: Step, c: Config, a: Uuid)
    requires Enabled(s, step, c)
  {
    match step
    case ClaimJob(w, b) => b == a && ClaimTakes(s.db, s.workers[w].job, a, w)
    case RenewLease(w) => s.workers[w].attempt == a && RenewTakes(s.db, a)
    case _ => false
  }

  /** When attempt `a` was last claimed or renewed during the first `n` steps. */
  ghost function LastTouch(trace: seq<Sys>, steps: seq<Step>, c: Config, n: nat, a: Uuid): Option<int>
    requires IsRun(trace, steps, c) && n <= |steps|
  {
    if n == 0 then None
    else if Touches(trace[n - 1], steps[n - 1], c, a) then Some(trace[n - 1].now)
    else LastTouch(trace, steps, c, n - 1, a)
  }

  /** Only claiming and renewing write a lease. */
  lemma LeaseFrame(db: Db, e: Event, a: Uuid)
    ensures var db' := Apply(db, e);
            && (a in db.attempts ==> a in db'.attempts)
            && (a in db.attempts && !(e.Renew? && e.attempt == a) ==>
                  db'.attempts[a].leaseExpiresAt == db.attempts[a].leaseExpiresAt)
            && (a !in db.attempts && a in db'.attempts ==>
                  e.Claim? && e.attempt == a && ClaimTakes(db, e.job, a, e.worker)
                  && db'.attempts[a].leaseExpiresAt == e.now + e.ttl)
            && (a in db.attempts && e.Renew? && e.attempt == a ==>
                  db'.attempts[a].leaseExpiresAt ==
                    if RenewTakes(db, a) then e.now + e.ttl else db.attempts[a].leaseExpiresAt)
  {
  }

  /** In every run the lease of an attempt is one TTL after its last claim or renewal. */
  lemma {:induction false} LeaseFollowsTouch(trace: seq<Sys>, steps: seq<Step>, c: Config, n: nat, a: Uuid)
    requires IsRun(trace, steps, c) && n <= |steps|
    ensures a in trace[n].db.attempts ==>
              && LastTouch(trace, steps, c, n, a).Some?
              && trace[n].db.attempts[a].leaseExpiresAt == LastTouch(trace, steps, c, n, a).value + c.leaseTtl
  {
    if n > 0 {
      LeaseFollowsTouch(trace, steps, c, n - 1, a);
      var s, step := trace[n - 1], steps[n - 1];
      assert trace[n].db == NextDb(s, step, c);
      if EventOf(s, step, c).Some? {
        LeaseFrame(s.db, EventOf(s, step, c).value, a);
      }
    }
  }

  /** The scan of the lease pass selects an attempt exactly when TTL plus grace have gone by unused. */
  lemma LeaseScanExact(trace: seq<Sys>, steps: seq<Step>, c: Config, n: nat, a: Uuid)
    requires IsRun(trace, steps, c) && n <= |steps|
    ensures Sweep.IsExpired(trace[n].db, a, c.sweep, trace[n].now) <==>
              && a in trace[n].db.attempts && trace[n].db.attempts[a].status == Running
              && LastTouch(trace, steps, c, n, a).Some?
              && trace[n].now > LastTouch(trace, steps, c, n, a).value + c.leaseTtl + c.sweep.leaseExpiryGrace
  {
    LeaseFollowsTouch(trace, steps, c, n, a);
  }

  /** The scanned attempts a reaper has still to deal with. */
  function Pending(pc: ReaperPc): seq<Sweep.ExpiredAttempt> {
    match pc
    case Expiring(rows) => rows
    case Telling(_, _, next) => Pending(next)
    case _ => []
  }

  lemma PendingStep(s: Sys, step: Step, c: Config, r: Uuid, row: Sweep.ExpiredAttempt)
    requires Enabled(s, step, c) && r in NextReapers(s, step, c) && row in Pending(NextReapers(s, step, c)[r])
    ensures || (r in s.reapers && row in Pending(s.reapers[r]))
            || (step.ScanLeases? && step.r == r
                && Sweep.IsExpired(s.db, row.attempt, c.sweep, s.now) && s.db.attempts[row.attempt].job == row.job)
  {
    if step.ScanLeases? && step.r == r {
      assert row in Elements(step.expired);
    }
  }

  /**
   Every attempt the lease pass goes on to retire was past its lease and the grace at the moment
   that very reaper scanned it, however much later the recovery commits.
   */
  lemma {:induction false} PendingWasExpired(trace: seq<Sys>, steps: seq<Step>, c: Config, n: nat, r: Uuid,
                                             row: Sweep.ExpiredAttempt) returns (k: nat)
    requires IsRun(trace, steps, c) && n <= |steps|
    requires r in trace[n].reapers && row in Pending(trace[n].reapers[r])
    ensures k < n && steps[k].ScanLeases? && steps[k].r == r
    ensures Sweep.IsExpired(trace[k].db, row.attempt, c.sweep, trace[k].now)
    ensures trace[k].db.attempts[row.attempt].job == row.job
  {
    PendingStep(trace[n - 1], steps[n - 1], c, r, row);
    if r in trace[n - 1].reapers && row in Pending(trace[n - 1].reapers[r]) {
      k := PendingWasExpired(trace, steps, c, n - 1, r, row);
    } else {
      k := n - 1;
    }
  }

  /** While `a` runs, it is never more than one TTL since its claim or last renewal. */
  ghost predicate RenewedInTime(trace: seq<Sys>, steps: seq<Step>, c: Config, n: nat, a: Uuid)
    requires IsRun(trace, steps, c) && n <= |steps|
  {
    forall i :: 0 <= i < n && a in trace[i].db.attempts && trace[i].db.attempts[a].status == Running ==>
      LastTouch(trace, steps, c, i, a).Some? && trace[i].now <= LastTouch(trace, steps, c, i, a).value + c.leaseTtl
  }

  /** An attempt whose renewals keep within its TTL is never retired by a lease pass, in any run. */
  lemma TimelyAttemptIsSafe(trace: seq<Sys>, steps: seq<Step>, c: Config, n: nat, r: Uuid, a: Uuid)
    requires IsRun(trace, steps, c) && n < |steps| && RenewedInTime(trace, steps, c, n, a)
    requires steps[n] == RecoverLease(r)
    ensures trace[n].reapers[r].attempts[0].attempt != a
  {
    var row := trace[n].reapers[r].attempts[0];
    if row.attempt == a {
      var k := PendingWasExpired(trace, steps, c, n, r, row);
      LeaseScanExact(trace, steps, c, k, a);
    }
  }

  // ---------- the lease pass, with everybody else running ----------

  predicate NotRunning(db: Db, a: Uuid) {
    a in db.attempts && db.attempts[a].status != Running
  }

  lemma NotRunningStays(db: Db, e: Event, a: Uuid)
    requires Inv(db) && NotRunning(db, a)
    ensures NotRunning(Apply(db, e), a)
  {
    assert Stale(db, a) by {
      var j := db.attempts[a].job;
      assert j in db.jobs ==> JobOk(db, j);
    }
    StaleStep(db, e, a);
  }

  /** Recovering a scanned attempt leaves it not running, even if it was renewed in the meantime. */
  lemma RecoveryRetires(db: Db, row: Sweep.ExpiredAttempt, now: int)
    requires row.attempt in db.attempts && db.attempts[row.attempt].job == row.job && AttemptOk(db, row.attempt)
    ensures NotRunning(RecoverTx(db, row.job, Some(row.attempt), LeaseExpired, now), row.attempt)
  {
  }

  lemma PendingKept(s: Sys, step: Step, c: Config, r: Uuid, row: Sweep.ExpiredAttempt)
    requires Enabled(s, step, c) && r in s.reapers && row in Pending(s.reapers[r]) && step != AbortSweep(r)
    ensures r in NextReapers(s, step, c)
    ensures row in Pending(NextReapers(s, step, c)[r]) || (step == RecoverLease(r) && row == s.reapers[r].attempts[0])
  {
  }

  ghost predicate RetiredOrPending(s: Sys, r: Uuid, row: Sweep.ExpiredAttempt) {
    && row.attempt in s.db.attempts && s.db.attempts[row.attempt].job == row.job
    && (NotRunning(s.db, row.attempt) || (r in s.reapers && row in Pending(s.reapers[r])))
  }

  lemma NextAttempts(s: Sys, step: Step, c: Config, a: Uuid)
    requires Inv(s.db) && Enabled(s, step, c) && a in s.db.attempts
    ensures a in NextDb(s, step, c).attempts && NextDb(s, step, c).attempts[a].job == s.db.attempts[a].job
    ensures NotRunning(s.db, a) ==> NotRunning(NextDb(s, step, c), a)
  {
    if EventOf(s, step, c).Some? {
      AttemptFacts(s.db, EventOf(s, step, c).value, a);
      if NotRunning(s.db, a) {
        NotRunningStays(s.db, EventOf(s, step, c).value, a);
      }
    }
  }

  lemma PendingRowStep(s: Sys, step: Step, c: Config, r: Uuid, row: Sweep.ExpiredAttempt)
    requires Enabled(s, step, c) && step != AbortSweep(r)
    requires r in s.reapers && row in Pending(s.reapers[r])
    requires row.attempt in s.db.attempts && s.db.attempts[row.attempt].job == row.job && AttemptOk(s.db, row.attempt)
    ensures r in NextReapers(s, step, c)
    ensures row in Pending(NextReapers(s, step, c)[r]) || NotRunning(NextDb(s, step, c), row.attempt)
  {
    PendingKept(s, step, c, r, row);
    if step == RecoverLease(r) && row == s.reapers[r].attempts[0] {
      RecoveryRetires(s.db, row, s.now);
    }
  }

  lemma RetirementStep(s: Sys, step: Step, c: Config, r: Uuid, row: Sweep.ExpiredAttempt)
    requires Inv(s.db) && Enabled(s, step, c) && step != AbortSweep(r) && RetiredOrPending(s, r, row)
    ensures RetiredOrPending(Next(s, step, c), r, row)
  {
    NextAttempts(s, step, c, row.attempt);
    if !NotRunning(s.db, row.attempt) {
      assert AttemptOk(s.db, row.attempt);
      PendingRowStep(s, step, c, r, row);
    }
  }

  lemma ScanStarts(s: Sys, step: Step, c: Config, row: Sweep.ExpiredAttempt)
    requires Enabled(s, step, c) && step.ScanLeases? && row in step.expired
    ensures RetiredOrPending(Next(s, step, c), step.r, row)
  {
    assert row in Elements(step.expired);
  }

  lemma {:induction false} RetiredSoFar(trace: seq<Sys>, steps: seq<Step>, c: Config, n: nat, m: nat, r: Uuid,
                                        row: Sweep.ExpiredAttempt)
    requires IsRun(trace, steps, c) && n < m <= |steps|
    requires steps[n].ScanLeases? && steps[n].r == r && row in steps[n].expired
    requires forall i :: n < i < m ==> steps[i] != AbortSweep(r)
    ensures RetiredOrPending(trace[m], r, row)
    decreases m
  {
    if m == n + 1 {
      ScanStarts(trace[n], steps[n], c, row);
    } else {
      RetiredSoFar(trace, steps, c, n, m - 1, r, row);
      SystemRunsTransactions(trace, steps, c, m - 1);
      RetirementStep(trace[m - 1], steps[m - 1], c, r, row);
    }
  }

  /**
   By the time a reaper that has scanned the leases goes on to the queue, with every other actor
   running freely in between, none of the attempts it scanned is running any more.
   */
  lemma LeasePassRetires(trace: seq<Sys>, steps: seq<Step>, c: Config, n: nat, m: nat, r: Uuid, a: Uuid)
    requires IsRun(trace, steps, c) && n < m < |steps|
    requires steps[n].ScanLeases? && steps[n].r == r && Sweep.IsExpired(trace[n].db, a, c.sweep, trace[n].now)
    requires steps[m].ScanQueue? && steps[m].r == r
    requires forall i :: n < i < m ==> steps[i] != AbortSweep(r)
    ensures NotRunning(trace[m].db, a)
  {
    var row := Sweep.ExpiredAttempt(trace[n].db.attempts[a].job, a);
    assert row in Elements(steps[n].expired);
    RetiredSoFar(trace, steps, c, n, m, r, row);
  }
}
