/**
 The queue of the running system is ordered by the priorities that the tables store: whoever
 enqueues a job, at submission, after a failure, after a recovery or to repair a lost entry, does
 so under the priority of its row.
 */
module Ordering {
  import opened Common
  import opened Database
  import opened Invariant
  import opened Lifecycle
  import opened PriorityQueue
  import opened QueueRefinement
  import opened System

  /** `p` is the stored priority of job `j`. */
  predicate IsPriority(db: Db, j: Uuid, p: int) {
    j in db.jobs && db.jobs[j].priority == p
  }

  /** Whoever is about to enqueue a job has its stored priority in hand. */
  ghost predicate ApiKnows(db: Db, api: map<Uuid, int>) {
    forall j :: j in api ==> IsPriority(db, j, api[j])
  }

  ghost predicate WorkersKnow(db: Db, workers: map<Uuid, WorkerPc>) {
    forall w :: w in workers && workers[w].Announcing? ==> IsPriority(db, workers[w].job, workers[w].priority)
  }

  predicate ReaperKnows(db: Db, pc: ReaperPc) {
    pc.Telling? ==> IsPriority(db, pc.job, pc.priority) && !pc.next.Telling?
  }

  ghost predicate ReapersKnow(db: Db, reapers: map<Uuid, ReaperPc>) {
    forall r :: r in reapers ==> ReaperKnows(db, reapers[r])
  }

  /** Every waiting entry stands under the stored priority of its job. */
  ghost predicate EntriesTrue(db: Db, waiting: seq<Entry>) {
    forall i :: 0 <= i < |waiting| ==> IsPriority(db, waiting[i].id, waiting[i].priority)
  }

  ghost predicate Knows(s: Sys) {
    ApiKnows(s.db, s.api) && WorkersKnow(s.db, s.workers) && ReapersKnow(s.db, s.reapers)
  }

  // ---------- priorities stay ----------

  /** Every stored priority of `db` is stored in `db'` as well. */
  ghost predicate KeepsPriorities(db: Db, db': Db) {
    forall j, p :: IsPriority(db, j, p) ==> IsPriority(db', j, p)
  }

  lemma PrioritiesStay(s: Sys, step: Step, c: Config)
    requires Inv(s.db) && Enabled(s, step, c)
    ensures KeepsPriorities(s.db, NextDb(s, step, c))
  {
    if EventOf(s, step, c).Some? {
      var e := EventOf(s, step, c).value;
      StepShape(s.db, e);
      ShapeMovesLegally(s.db, Apply(s.db, e), ShapeOf(s.db, e));
    }
  }

  lemma SubmissionKnows(s: Sys, step: Step, c: Config)
    requires Enabled(s, step, c) && ApiKnows(s.db, s.api) && KeepsPriorities(s.db, NextDb(s, step, c))
    ensures ApiKnows(NextDb(s, step, c), NextApi(s, step, c))
  {
    forall j | j in NextApi(s, step, c) ensures IsPriority(NextDb(s, step, c), j, NextApi(s, step, c)[j]) {
      if j in s.api && NextApi(s, step, c)[j] == s.api[j] {
        assert IsPriority(s.db, j, s.api[j]);
      }
    }
  }

  lemma FailureKnows(s: Sys, step: Step, c: Config)
    requires Enabled(s, step, c) && WorkersKnow(s.db, s.workers) && KeepsPriorities(s.db, NextDb(s, step, c))
    ensures WorkersKnow(NextDb(s, step, c), NextWorkers(s, step, c))
  {
    var workers := NextWorkers(s, step, c);
    forall w | w in workers && workers[w].Announcing?
      ensures IsPriority(NextDb(s, step, c), workers[w].job, workers[w].priority)
    {
      assert IsPriority(s.db, workers[w].job, workers[w].priority);
    }
  }

  lemma RecoveryKnows(s: Sys, step: Step, c: Config)
    requires Enabled(s, step, c) && ReapersKnow(s.db, s.reapers) && KeepsPriorities(s.db, NextDb(s, step, c))
    ensures ReapersKnow(NextDb(s, step, c), NextReapers(s, step, c))
  {
    var reapers := NextReapers(s, step, c);
    forall r | r in reapers ensures ReaperKnows(NextDb(s, step, c), reapers[r]) {
      assert r in s.reapers ==> ReaperKnows(s.db, s.reapers[r]);
      assert ReaperKnows(s.db, reapers[r]);
    }
  }

  lemma StepKeepsKnows(s: Sys, step: Step, c: Config)
    requires Inv(s.db) && Enabled(s, step, c) && Knows(s)
    ensures Knows(Next(s, step, c))
  {
    PrioritiesStay(s, step, c);
    SubmissionKnows(s, step, c);
    FailureKnows(s, step, c);
    RecoveryKnows(s, step, c);
  }

  lemma {:induction false} AlwaysKnows(trace: seq<Sys>, steps: seq<Step>, c: Config, n: nat)
    requires IsRun(trace, steps, c) && n <= |steps|
    ensures Knows(trace[n])
  {
    if n > 0 {
      var k := n - 1;
      AlwaysKnows(trace, steps, c, k);
      SystemRunsTransactions(trace, steps, c, k);
      StepKeepsKnows(trace[k], steps[k], c);
    }
  }

  // ---------- the waiting entries ----------

  lemma Added(db: Db, q: Redis, waiting: seq<Entry>, j: Uuid, p: int) returns (next: seq<Entry>)
    requires Simulates(q, waiting) && EntriesTrue(db, waiting) && IsPriority(db, j, p)
    ensures next == Arrive(waiting, j, p) && Simulates(Enqueue(q, j, p), next) && EntriesTrue(db, next)
  {
    EnqueueSimulates(q, waiting, j, p);
    next := Arrive(waiting, j, p);
  }

  lemma Removed(db: Db, q: Redis, waiting: seq<Entry>) returns (next: seq<Entry>)
    requires Simulates(q, waiting) && EntriesTrue(db, waiting)
    ensures next == Leave(waiting) && Simulates(PopScript(q), next) && EntriesTrue(db, next)
  {
    PopSimulates(q, waiting);
    next := Leave(waiting);
    if waiting != [] {
      forall i | 0 <= i < |next| ensures IsPriority(db, next[i].id, next[i].priority) {
        WithoutAt(waiting, Front(waiting), i);
      }
    }
  }

  lemma QueueStep(s: Sys, step: Step, c: Config, waiting: seq<Entry>) returns (next: seq<Entry>)
    requires Enabled(s, step, c) && Knows(s) && Simulates(s.queue, waiting) && EntriesTrue(s.db, waiting)
    ensures Simulates(NextQueue(s, step, c), next) && EntriesTrue(s.db, next)
  {
    next := waiting;
    match step
    case TellSubmitted(j) => next := Added(s.db, s.queue, waiting, j, s.api[j]);
    case TellRetry(w) => next := Added(s.db, s.queue, waiting, s.workers[w].job, s.workers[w].priority);
    case TellRecovery(r) =>
      assert ReaperKnows(s.db, s.reapers[r]);
      next := Added(s.db, s.queue, waiting, s.reapers[r].job, s.reapers[r].priority);
    case RestoreEntry(r) =>
      var j := s.reapers[r].job;
      if j in s.db.jobs {
        next := Added(s.db, s.queue, waiting, j, s.db.jobs[j].priority);
      }
    case PopJob(_) => next := Removed(s.db, s.queue, waiting);
    case FlushRedis => next := [];
    case _ =>
  }

  lemma EntriesStep(trace: seq<Sys>, steps: seq<Step>, c: Config, n: nat, waiting: seq<Entry>)
    returns (next: seq<Entry>)
    requires IsRun(trace, steps, c) && n < |steps|
    requires Simulates(trace[n].queue, waiting) && EntriesTrue(trace[n].db, waiting)
    ensures Simulates(trace[n + 1].queue, next) && EntriesTrue(trace[n + 1].db, next)
  {
    AlwaysKnows(trace, steps, c, n);
    SystemRunsTransactions(trace, steps, c, n);
    next := QueueStep(trace[n], steps[n], c, waiting);
    PrioritiesStay(trace[n], steps[n], c);
  }

  /**
   The Redis keys of every system state hold some list of waiting entries, each under the priority
   stored in the row of its job. So in every run every pop takes the earliest entry of the highest
   stored priority, every member waits in the tier of its stored priority, and the three
   structures always agree.
   */
  lemma {:induction false} QueueAlwaysOrdered(trace: seq<Sys>, steps: seq<Step>, c: Config, n: nat)
    returns (waiting: seq<Entry>)
    requires IsRun(trace, steps, c) && n <= |steps|
    ensures Simulates(trace[n].queue, waiting) && RepOk(trace[n].queue)
    ensures PopResult(trace[n].queue) == Taken(waiting)
    ensures forall i :: 0 <= i < |waiting| ==>
              waiting[i].id in trace[n].db.jobs && trace[n].db.jobs[waiting[i].id].priority == waiting[i].priority
    ensures EntriesTrue(trace[n].db, waiting)
  {
    waiting := [];
    if n > 0 {
      var k := n - 1;
      waiting := QueueAlwaysOrdered(trace, steps, c, k);
      waiting := EntriesStep(trace, steps, c, k, waiting);
    }
    PopSimulates(trace[n].queue, waiting);
    SimulatedRepOk(trace[n].queue, waiting);
  }

  /** Every member waits in the tier of its stored priority. */
  lemma MemberInItsTier(db: Db, q: Redis, waiting: seq<Entry>, j: Uuid)
    requires Simulates(q, waiting) && EntriesTrue(db, waiting) && j in q.members
    ensures j in db.jobs && j in Tier(q, db.jobs[j].priority)
  {
    var i :| 0 <= i < |waiting| && waiting[i].id == j;
    assert IsPriority(db, j, waiting[i].priority);
    IdsAtMembers(waiting, waiting[i].priority, j);
  }

  /** In every state of every run a pop takes a job of the highest stored priority in the queue. */
  lemma PopsHighestPriority(trace: seq<Sys>, steps: seq<Step>, c: Config, n: nat, j: Uuid, k: Uuid)
    requires IsRun(trace, steps, c) && n <= |steps|
    requires PopResult(trace[n].queue) == Some(j) && k in trace[n].queue.members
    ensures j in trace[n].db.jobs && k in trace[n].db.jobs
    ensures trace[n].db.jobs[k].priority <= trace[n].db.jobs[j].priority
    ensures k in Tier(trace[n].queue, trace[n].db.jobs[k].priority)
  {
    var waiting := QueueAlwaysOrdered(trace, steps, c, n);
    MemberInItsTier(trace[n].db, trace[n].queue, waiting, k);
    var f := Front(waiting);
    assert IsPriority(trace[n].db, waiting[f].id, waiting[f].priority);
    var i :| 0 <= i < |waiting| && waiting[i].id == k;
    assert IsPriority(trace[n].db, k, waiting[i].priority);
  }
}
