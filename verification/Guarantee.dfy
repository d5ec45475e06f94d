/**
 The promise of the system as its clients see it, over every run of the whole system: at most
 one visible completion per job, with the complete output set of one attempt, for good.
 */
module Guarantee {
  import opened Common
  import opened Database
  import opened Lifecycle
  import opened System
  import opened Publishing
  import Invariant
  import Outputs

  lemma AppendGroups<T>(a: seq<T>, b: seq<T>, c: seq<T>)
    ensures a + b + c == a + (b + c)
  {
  }

  lemma CommitsNext(trace: seq<Sys>, steps: seq<Step>, c: Config, n: nat) returns (es: seq<Event>)
    requires IsRun(trace, steps, c) && n < |steps|
    ensures Commits(trace, steps, c, n + 1) == Commits(trace, steps, c, n) + es
  {
    es := match EventOf(trace[n], steps[n], c) case None => [] case Some(e) => [e];
  }

  lemma {:induction false} CommitsExtend(trace: seq<Sys>, steps: seq<Step>, c: Config, n: nat, m: nat)
    returns (between: seq<Event>)
    requires IsRun(trace, steps, c) && n <= m <= |steps|
    ensures Commits(trace, steps, c, m) == Commits(trace, steps, c, n) + between
    decreases m
  {
    if m == n {
      between := [];
      assert Commits(trace, steps, c, n) + between == Commits(trace, steps, c, n);
    } else {
      between := CommitsExtend(trace, steps, c, n, m - 1);
      var es := CommitsNext(trace, steps, c, m - 1);
      AppendGroups(Commits(trace, steps, c, n), between, es);
      between := between + es;
    }
  }

  lemma FullSetCovers(c: Config, pc: WorkerPc)
    requires pc.Working? && FullSet(pc.files)
    ensures CoversAllTypes(RowsOf(c, pc))
  {
    var rows := RowsOf(c, pc);
    forall t: OutputType ensures Includes(rows, t) {
      assert rows[TaskOf(t)].kind == t;
    }
  }

  lemma CompletionIsFull(trace: seq<Sys>, steps: seq<Step>, c: Config, n: nat)
    requires IsRun(trace, steps, c) && n < |steps| && steps[n].CompleteJob?
    ensures CoversAllTypes(RowsOf(c, trace[n].workers[steps[n].w]))
  {
    CompletesWithFullSet(trace, steps, c, n, steps[n].w);
    FullSetCovers(c, trace[n].workers[steps[n].w]);
  }

  /** Workers complete only with one output of every type. */
  lemma {:induction false} CommitsCompleteInFull(trace: seq<Sys>, steps: seq<Step>, c: Config, n: nat)
    requires IsRun(trace, steps, c) && n <= |steps|
    ensures CompletesInFull(Commits(trace, steps, c, n))
  {
    if n > 0 {
      CommitsCompleteInFull(trace, steps, c, n - 1);
      if steps[n - 1].CompleteJob? {
        CompletionIsFull(trace, steps, c, n - 1);
      }
    }
  }

  /**
   At most one visible completion: of two completion steps of one job in one run, by whatever
   workers, at most one takes effect.
   */
  lemma AtMostOnceVisibleCompletion(trace: seq<Sys>, steps: seq<Step>, c: Config, n: nat, m: nat, w: Uuid, v: Uuid)
    requires IsRun(trace, steps, c) && n < m < |steps|
    requires steps[n] == CompleteJob(w) && steps[m] == CompleteJob(v)
    requires CompleteTakes(trace[n].db, trace[n].workers[w].job, trace[n].workers[w].attempt)
    requires CompleteTakes(trace[m].db, trace[m].workers[v].job, trace[m].workers[v].attempt)
    ensures trace[n].workers[w].job != trace[m].workers[v].job
  {
    var j := trace[n].workers[w].job;
    assert trace[n + 1].db == NextDb(trace[n], steps[n], c);
    assert IsCompleted(trace[n + 1].db, j);
    SystemRunsTransactions(trace, steps, c, n + 1);
    SystemRunsTransactions(trace, steps, c, m);
    var between := CommitsExtend(trace, steps, c, n + 1, m);
    CompletionIsFinal(Commits(trace, steps, c, n + 1), between, j);
  }

  /**
   A client that reads the job in state `n` and finds it completed, and then reads the outputs in
   any later state `m`, gets one output of each type, in some order, all of the attempt that
   completed the job: a set the benchmark's checker accepts.
   */
  lemma ClientSeesOneCompleteSet(trace: seq<Sys>, steps: seq<Step>, c: Config, n: nat, m: nat, j: Uuid,
                                 ts: seq<OutputType>)
    requires IsRun(trace, steps, c) && n <= m <= |steps| && IsCompleted(trace[n].db, j)
    requires Enumerates(ts, OutputsOf(trace[m].db, j).Keys)
    ensures multiset(Outputs.Named(ts)) == multiset(Outputs.NAMES)
    ensures forall t: OutputType ::
              && t in OutputsOf(trace[m].db, j)
              && Some(OutputsOf(trace[m].db, j)[t].attempt) == trace[n].db.jobs[j].completed
    ensures j in trace[m].db.jobs && trace[m].db.jobs[j] == trace[n].db.jobs[j]
  {
    SystemRunsTransactions(trace, steps, c, n);
    SystemRunsTransactions(trace, steps, c, m);
    CommitsCompleteInFull(trace, steps, c, n);
    var es := Commits(trace, steps, c, n);
    var between := CommitsExtend(trace, steps, c, n, m);
    CompletionIsFinal(es, between, j);
    TwoQueryReader(es, between, j);
    Outputs.ReaderSeesCompleteSet(es, between, j, ts);
  }

  // ---------- stale workers ----------

  /** What a worker still does between its claim and its report, or instead of the report. */
  predicate IsStepOfAttempt(step: Step, w: Uuid) {
    match step
    case MarkBusy(v) => v == w
    case RenewLease(v) => v == w
    case EnterPhase(v, _) => v == w
    case NoteDuration(v, _, _) => v == w
    case Transcode(v, _, _) => v == w
    case Upload(v, _) => v == w
    case CompleteJob(v) => v == w
    case FailJob(v) => v == w
    case GiveUp(v) => v == w
    case _ => false
  }

  lemma StaleInSystem(trace: seq<Sys>, steps: seq<Step>, c: Config, n: nat, m: nat, a: Uuid)
    requires IsRun(trace, steps, c) && n <= m <= |steps| && Stale(trace[n].db, a)
    ensures a in trace[m].db.attempts && trace[m].db.attempts[a].status != Running
    ensures forall j :: !IsCurrent(trace[m].db, j, a)
  {
    SystemRunsTransactions(trace, steps, c, n);
    SystemRunsTransactions(trace, steps, c, m);
    var between := CommitsExtend(trace, steps, c, n, m);
    StaleForever(Commits(trace, steps, c, n), between, a);
    NeverCurrent(trace[m].db, a);
  }

  lemma NeverCurrent(db: Db, a: Uuid)
    requires Invariant.Inv(db) && a in db.attempts && db.attempts[a].status != Running
    ensures forall j :: !IsCurrent(db, j, a)
  {
    forall j ensures !IsCurrent(db, j, a) {
      assert j in db.jobs ==> Invariant.JobOk(db, j);
    }
  }

  /** The tables are the same but for the durations of attempt `a` and the row of worker `w`. */
  ghost predicate OnlyNotes(db: Db, db': Db, a: Uuid, w: Uuid) {
    && db'.jobs == db.jobs && db'.outputs == db.outputs
    && db'.attempts.Keys == db.attempts.Keys
    && (forall b :: b in db.attempts ==>
          db'.attempts[b] == db.attempts[b]
          || (b == a && Invariant.Core(db'.attempts[b]) == Invariant.Core(db.attempts[b])))
    && db'.workers.Keys == db.workers.Keys
    && (forall v :: v in db.workers && v != w ==> db'.workers[v] == db.workers[v])
  }

  lemma StaleEvent(db: Db, e: Event, a: Uuid, w: Uuid)
    requires a in db.attempts && db.attempts[a].status != Running && forall j :: !IsCurrent(db, j, a)
    requires IssuedFor(e, a) || (e.RecordDuration? && e.attempt == a) || (e.SetBusy? && e.worker == w)
    ensures OnlyNotes(db, Apply(db, e), a, w)
  {
  }

  lemma StaleTablesStep(s: Sys, step: Step, c: Config, w: Uuid, a: Uuid)
    requires Enabled(s, step, c) && IsWorking(s, w) && s.workers[w].attempt == a && IsStepOfAttempt(step, w)
    requires a in s.db.attempts && s.db.attempts[a].status != Running && forall j :: !IsCurrent(s.db, j, a)
    ensures OnlyNotes(s.db, NextDb(s, step, c), a, w)
  {
    if EventOf(s, step, c).Some? {
      StaleEvent(s.db, EventOf(s, step, c).value, a, w);
    }
  }

  lemma StalePcStep(s: Sys, step: Step, c: Config, w: Uuid, a: Uuid)
    requires Enabled(s, step, c) && IsWorking(s, w) && s.workers[w].attempt == a && IsStepOfAttempt(step, w)
    requires !IsCurrent(s.db, s.workers[w].job, a)
    ensures NextQueue(s, step, c) == s.queue
    ensures w in NextWorkers(s, step, c)
    ensures var pc := NextWorkers(s, step, c)[w];
            if step.CompleteJob? || step.FailJob? || step.GiveUp? then pc == Finishing
            else pc.Working? && pc.attempt == a
  {
  }

  /**
   A worker whose attempt is stale, at whatever later moment it takes a step of that attempt,
   changes neither the queue nor the tables, the attempt's durations and its own worker row aside;
   its report of success or failure goes nowhere, so it never enqueues the job; and no object
   that an output row names is touched by its uploads.
   */
  lemma StaleWorkerIsInvisible(trace: seq<Sys>, steps: seq<Step>, c: Config, n: nat, m: nat, w: Uuid, a: Uuid)
    requires IsRun(trace, steps, c) && n <= m < |steps| && Stale(trace[n].db, a)
    requires IsWorking(trace[m], w) && trace[m].workers[w].attempt == a && IsStepOfAttempt(steps[m], w)
    ensures OnlyNotes(trace[m].db, trace[m + 1].db, a, w)
    ensures trace[m + 1].queue == trace[m].queue
    ensures w in trace[m + 1].workers
    ensures var pc := trace[m + 1].workers[w];
            if steps[m].CompleteJob? || steps[m].FailJob? || steps[m].GiveUp? then pc == Finishing
            else pc.Working? && pc.attempt == a
    ensures forall j, t :: (j, t) in trace[m].db.outputs ==>
              var key := ObjectOf(c, j, trace[m].db.outputs[(j, t)].attempt, t);
              key in trace[m].store && key in trace[m + 1].store && trace[m + 1].store[key] == trace[m].store[key]
  {
    StaleInSystem(trace, steps, c, n, m, a);
    StaleTablesStep(trace[m], steps[m], c, w, a);
    StalePcStep(trace[m], steps[m], c, w, a);
    forall j, t | (j, t) in trace[m].db.outputs
      ensures var key := ObjectOf(c, j, trace[m].db.outputs[(j, t)].attempt, t);
              key in trace[m].store && key in trace[m + 1].store && trace[m + 1].store[key] == trace[m].store[key]
    {
      NamedObjectStays(trace, steps, c, m, j, t);
    }
  }

  lemma NamedObjectStays(trace: seq<Sys>, steps: seq<Step>, c: Config, m: nat, j: Uuid, t: OutputType)
    requires IsRun(trace, steps, c) && m < |steps| && (j, t) in trace[m].db.outputs
    ensures var key := ObjectOf(c, j, trace[m].db.outputs[(j, t)].attempt, t);
            key in trace[m].store && key in trace[m + 1].store && trace[m + 1].store[key] == trace[m].store[key]
  {
    RowsNameObjects(trace, steps, c, m);
    assert RowOk(trace[m], c, j, t);
    SucceededObjectsStay(trace[m], steps[m], c, j, trace[m].db.outputs[(j, t)].attempt, t);
  }
}
