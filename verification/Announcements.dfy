/**
 Every time a job becomes queued, exactly one actor owes the queue one announcement: it is made
 once, or lost to one fault, or still to come.
 */
module Announcements {
  import opened Common
  import opened Database
  import opened Invariant
  import opened System
  import opened Stranding
  import Ordering

  /** Who owes the queue an announcement of a job. */
  datatype Debtor = Submission | OfWorker(w: Uuid) | OfReaper(r: Uuid)

  predicate WorkerOwes(workers: map<Uuid, WorkerPc>, w: Uuid, j: Uuid) {
    w in workers && workers[w].Announcing? && workers[w].job == j
  }

  predicate ReaperOwes(reapers: map<Uuid, ReaperPc>, r: Uuid, j: Uuid) {
    r in reapers && reapers[r].Telling? && reapers[r].job == j
  }

  function OwingApi(api: map<Uuid, int>, j: Uuid): set<Debtor> {
    if j in api then {Submission} else {}
  }

  function OwingWorkers(workers: map<Uuid, WorkerPc>, j: Uuid): set<Debtor> {
    set w | w in workers && WorkerOwes(workers, w, j) :: OfWorker(w)
  }

  function OwingReapers(reapers: map<Uuid, ReaperPc>, j: Uuid): set<Debtor> {
    set r | r in reapers && ReaperOwes(reapers, r, j) :: OfReaper(r)
  }

  function Debtors(s: Sys, j: Uuid): set<Debtor> {
    OwingApi(s.api, j) + OwingWorkers(s.workers, j) + OwingReapers(s.reapers, j)
  }

  // ---------- the three things that can happen to an announcement ----------

  predicate BecomesQueued(db: Db, db': Db, j: Uuid) {
    !IsQueued(db, j) && IsQueued(db', j)
  }

  /** The step announces job `j`. */
  predicate Announces(s: Sys, step: Step, j: Uuid) {
    match step
    case TellSubmitted(k) => k == j
    case TellRetry(w) => WorkerOwes(s.workers, w, j)
    case TellRecovery(r) => ReaperOwes(s.reapers, r, j)
    case _ => false
  }

  /** The step is a fault that costs job `j` an announcement. */
  predicate Forfeits(s: Sys, step: Step, j: Uuid) {
    match step
    case LoseSubmission(k) => k == j
    case LoseRetry(w) => WorkerOwes(s.workers, w, j)
    case CrashWorker(w) => WorkerOwes(s.workers, w, j)
    case AbortSweep(r) => ReaperOwes(s.reapers, r, j)
    case _ => false
  }

  function One(b: bool): nat {
    if b then 1 else 0
  }

  // ---------- one step ----------

  /** `after` has lost `x`, gained `x`, or neither. */
  ghost predicate Differs(before: set<Debtor>, after: set<Debtor>, x: Debtor, gain: bool, loss: bool) {
    && (gain ==> x !in before && after == before + {x})
    && (loss ==> x in before && after == before - {x})
    && (!gain && !loss ==> after == before)
  }

  lemma DiffersCounts(before: set<Debtor>, after: set<Debtor>, x: Debtor, gain: bool, loss: bool)
    requires Differs(before, after, x, gain, loss) && !(gain && loss)
    ensures |after| == |before| + One(gain) - One(loss)
  {
  }

  lemma ApiStep(s: Sys, step: Step, c: Config, j: Uuid)
    requires Enabled(s, step, c) && (j in s.api ==> j in s.db.jobs)
    ensures Differs(OwingApi(s.api, j), OwingApi(NextApi(s, step, c), j), Submission,
                    step.Submit? && step.job == j && CreateTakes(s.db, j, step.maxRetries),
                    step == TellSubmitted(j) || step == LoseSubmission(j))
  {
  }

  /** Only the entry of worker `w` can change what the workers owe. */
  lemma OneWorkerChanges(workers: map<Uuid, WorkerPc>, workers': map<Uuid, WorkerPc>, w: Uuid, j: Uuid)
    requires forall v :: v != w ==> (WorkerOwes(workers', v, j) <==> WorkerOwes(workers, v, j))
    ensures Differs(OwingWorkers(workers, j), OwingWorkers(workers', j), OfWorker(w),
                    !WorkerOwes(workers, w, j) && WorkerOwes(workers', w, j),
                    WorkerOwes(workers, w, j) && !WorkerOwes(workers', w, j))
  {
    var before, after := OwingWorkers(workers, j), OwingWorkers(workers', j);
    forall v ensures OfWorker(v) in after <==> WorkerOwes(workers', v, j) {
    }
    forall v ensures OfWorker(v) in before <==> WorkerOwes(workers, v, j) {
    }
    forall x | x in before || x in after ensures x.OfWorker? {
    }
  }

  lemma OneReaperChanges(reapers: map<Uuid, ReaperPc>, reapers': map<Uuid, ReaperPc>, r: Uuid, j: Uuid)
    requires forall v :: v != r ==> (ReaperOwes(reapers', v, j) <==> ReaperOwes(reapers, v, j))
    ensures Differs(OwingReapers(reapers, j), OwingReapers(reapers', j), OfReaper(r),
                    !ReaperOwes(reapers, r, j) && ReaperOwes(reapers', r, j),
                    ReaperOwes(reapers, r, j) && !ReaperOwes(reapers', r, j))
  {
    var before, after := OwingReapers(reapers, j), OwingReapers(reapers', j);
    forall v ensures OfReaper(v) in after <==> ReaperOwes(reapers', v, j) {
    }
    forall v ensures OfReaper(v) in before <==> ReaperOwes(reapers, v, j) {
    }
    forall x | x in before || x in after ensures x.OfReaper? {
    }
  }

  /** The step creates job `j`. */
  predicate Submits(s: Sys, step: Step, j: Uuid) {
    step.Submit? && step.job == j && CreateTakes(s.db, j, step.maxRetries)
  }

  /** The step fails the current attempt of job `j` and puts the job back. */
  predicate PutsBack(s: Sys, step: Step, j: Uuid) {
    && step.FailJob? && IsWorking(s, step.w) && s.workers[step.w].job == j
    && IsCurrent(s.db, j, s.workers[step.w].attempt) && RetriesLeft(s.db.jobs[j])
  }

  /** The step recovers job `j` and puts it back. */
  ghost predicate Recovers(s: Sys, step: Step, c: Config, j: Uuid)
    requires Enabled(s, step, c)
  {
    && (step.RecoverDeath? || step.RecoverLease?)
    && var e := EventOf(s, step, c).value;
    e.job == j && RecoverTakes(s.db, j, e.expected) && RetriesLeft(s.db.jobs[j])
  }

  /** The step takes the announcement of job `j` from worker `w`. */
  predicate TakesFromWorker(s: Sys, step: Step, w: Uuid, j: Uuid) {
    (step == TellRetry(w) || step == LoseRetry(w) || step == CrashWorker(w)) && WorkerOwes(s.workers, w, j)
  }

  /** The step takes the announcement of job `j` from reaper `r`. */
  predicate TakesFromReaper(s: Sys, step: Step, r: Uuid, j: Uuid) {
    (step == TellRecovery(r) || step == AbortSweep(r)) && ReaperOwes(s.reapers, r, j)
  }

  lemma WorkerOwesStep(s: Sys, step: Step, c: Config, w: Uuid, j: Uuid)
    requires Enabled(s, step, c)
    ensures WorkerOwes(NextWorkers(s, step, c), w, j) <==>
              || (PutsBack(s, step, j) && step.w == w)
              || (WorkerOwes(s.workers, w, j) && !TakesFromWorker(s, step, w, j))
    ensures PutsBack(s, step, j) && step.w == w ==> !WorkerOwes(s.workers, w, j)
  {
  }

  /** What the workers owe, counted, when only worker `w` may come to owe or cease to. */
  lemma CountWorkers(workers: map<Uuid, WorkerPc>, workers': map<Uuid, WorkerPc>, w: Uuid, j: Uuid,
                     gain: bool, loss: bool)
    requires forall v :: WorkerOwes(workers', v, j) <==>
                           (gain && v == w) || (WorkerOwes(workers, v, j) && !(loss && v == w))
    requires gain ==> !loss && !WorkerOwes(workers, w, j)
    requires loss ==> WorkerOwes(workers, w, j)
    ensures |OwingWorkers(workers', j)| == |OwingWorkers(workers, j)| + One(gain) - One(loss)
  {
    OneWorkerChanges(workers, workers', w, j);
    DiffersCounts(OwingWorkers(workers, j), OwingWorkers(workers', j), OfWorker(w), gain, loss);
  }

  lemma CountReapers(reapers: map<Uuid, ReaperPc>, reapers': map<Uuid, ReaperPc>, r: Uuid, j: Uuid,
                     gain: bool, loss: bool)
    requires forall v :: ReaperOwes(reapers', v, j) <==>
                           (gain && v == r) || (ReaperOwes(reapers, v, j) && !(loss && v == r))
    requires gain ==> !loss && !ReaperOwes(reapers, r, j)
    requires loss ==> ReaperOwes(reapers, r, j)
    ensures |OwingReapers(reapers', j)| == |OwingReapers(reapers, j)| + One(gain) - One(loss)
  {
    OneReaperChanges(reapers, reapers', r, j);
    DiffersCounts(OwingReapers(reapers, j), OwingReapers(reapers', j), OfReaper(r), gain, loss);
  }

  /** Whose debts a step can change. */
  function WorkerIn(step: Step): Uuid {
    match step
    case FailJob(w) => w
    case TellRetry(w) => w
    case LoseRetry(w) => w
    case CrashWorker(w) => w
    case _ => 0
  }

  function ReaperIn(step: Step): Uuid {
    match step
    case RecoverDeath(r) => r
    case RecoverLease(r) => r
    case TellRecovery(r) => r
    case AbortSweep(r) => r
    case _ => 0
  }

  lemma WorkersOwe(s: Sys, step: Step, c: Config, j: Uuid)
    requires Enabled(s, step, c)
    ensures |OwingWorkers(NextWorkers(s, step, c), j)| ==
              |OwingWorkers(s.workers, j)| + One(PutsBack(s, step, j))
              - One(TakesFromWorker(s, step, WorkerIn(step), j))
  {
    var w := WorkerIn(step);
    forall v
      ensures WorkerOwes(NextWorkers(s, step, c), v, j) <==>
                || (PutsBack(s, step, j) && v == w)
                || (WorkerOwes(s.workers, v, j) && !(TakesFromWorker(s, step, w, j) && v == w))
    {
      WorkerOwesStep(s, step, c, v, j);
    }
    WorkerOwesStep(s, step, c, w, j);
    CountWorkers(s.workers, NextWorkers(s, step, c), w, j, PutsBack(s, step, j), TakesFromWorker(s, step, w, j));
  }

  /** Reaper `v` comes to owe an announcement, or ceases to, only if it is the one that takes the step. */
  ghost predicate ReaperFlowsAt(s: Sys, step: Step, c: Config, v: Uuid, j: Uuid)
    requires Enabled(s, step, c)
  {
    var r := ReaperIn(step);
    && (Recovers(s, step, c, j) ==> !ReaperOwes(s.reapers, r, j))
    && (ReaperOwes(NextReapers(s, step, c), v, j) <==>
          || (Recovers(s, step, c, j) && v == r)
          || (ReaperOwes(s.reapers, v, j) && !(TakesFromReaper(s, step, r, j) && v == r)))
  }

  lemma ReaperFlow(s: Sys, step: Step, c: Config, v: Uuid, j: Uuid)
    requires Enabled(s, step, c) && (step.TellRecovery? ==> ReaperOk(s.reapers[step.r]))
    ensures ReaperFlowsAt(s, step, c, v, j)
  {
  }

  lemma ReapersOwe(s: Sys, step: Step, c: Config, j: Uuid)
    requires Enabled(s, step, c) && (step.TellRecovery? ==> ReaperOk(s.reapers[step.r]))
    ensures |OwingReapers(NextReapers(s, step, c), j)| ==
              |OwingReapers(s.reapers, j)| + One(Recovers(s, step, c, j))
              - One(TakesFromReaper(s, step, ReaperIn(step), j))
  {
    forall v ensures ReaperFlowsAt(s, step, c, v, j) {
      ReaperFlow(s, step, c, v, j);
    }
    assert ReaperFlowsAt(s, step, c, ReaperIn(step), j);
    CountReapers(s.reapers, NextReapers(s, step, c), ReaperIn(step), j,
                 Recovers(s, step, c, j), TakesFromReaper(s, step, ReaperIn(step), j));
  }

  lemma ApiOwes(s: Sys, step: Step, c: Config, j: Uuid)
    requires Enabled(s, step, c) && (j in s.api ==> j in s.db.jobs)
    ensures |OwingApi(NextApi(s, step, c), j)| ==
              |OwingApi(s.api, j)| + One(Submits(s, step, j))
              - One(step == TellSubmitted(j) || step == LoseSubmission(j))
  {
    ApiStep(s, step, c, j);
    DiffersCounts(OwingApi(s.api, j), OwingApi(NextApi(s, step, c), j), Submission,
                  Submits(s, step, j), step == TellSubmitted(j) || step == LoseSubmission(j));
  }

  lemma DebtorCount(s: Sys, j: Uuid)
    ensures |Debtors(s, j)| == |OwingApi(s.api, j)| + |OwingWorkers(s.workers, j)| + |OwingReapers(s.reapers, j)|
  {
    assert OwingApi(s.api, j) !! OwingWorkers(s.workers, j);
    assert (OwingApi(s.api, j) + OwingWorkers(s.workers, j)) !! OwingReapers(s.reapers, j);
  }

  lemma QueueingTakes(s: Sys, step: Step, c: Config, j: Uuid)
    requires Enabled(s, step, c) && (j in s.db.jobs ==> JobOk(s.db, j))
    requires Submits(s, step, j) || PutsBack(s, step, j) || Recovers(s, step, c, j)
    ensures BecomesQueued(s.db, NextDb(s, step, c), j)
  {
  }

  /** A job becomes queued by exactly the steps after which somebody owes its announcement. */
  lemma QueuedByWhom(s: Sys, step: Step, c: Config, j: Uuid)
    requires Inv(s.db) && Enabled(s, step, c)
    ensures BecomesQueued(s.db, NextDb(s, step, c), j) <==>
              Submits(s, step, j) || PutsBack(s, step, j) || Recovers(s, step, c, j)
  {
    if BecomesQueued(s.db, NextDb(s, step, c), j) {
      HowJobsGetQueued(s.db, EventOf(s, step, c).value, j);
      QueueingStep(s, step, c);
    } else if Submits(s, step, j) || PutsBack(s, step, j) || Recovers(s, step, c, j) {
      QueueingTakes(s, step, c, j);
      assert false;
    }
  }

  lemma LossesAdd(s: Sys, step: Step, j: Uuid)
    ensures One(Announces(s, step, j)) + One(Forfeits(s, step, j)) ==
              One(step == TellSubmitted(j) || step == LoseSubmission(j))
              + One(TakesFromWorker(s, step, WorkerIn(step), j)) + One(TakesFromReaper(s, step, ReaperIn(step), j))
  {
  }

  lemma GainsAdd(s: Sys, step: Step, c: Config, j: Uuid)
    requires Inv(s.db) && Enabled(s, step, c)
    ensures One(BecomesQueued(s.db, NextDb(s, step, c), j)) ==
              One(Submits(s, step, j)) + One(PutsBack(s, step, j)) + One(Recovers(s, step, c, j))
  {
    QueuedByWhom(s, step, c, j);
  }

  lemma DebtStep(s: Sys, step: Step, c: Config, j: Uuid)
    requires Enabled(s, step, c) && (j in s.api ==> j in s.db.jobs)
    requires step.TellRecovery? ==> ReaperOk(s.reapers[step.r])
    ensures |Debtors(Next(s, step, c), j)| ==
              |Debtors(s, j)| + One(Submits(s, step, j)) + One(PutsBack(s, step, j)) + One(Recovers(s, step, c, j))
              - One(Announces(s, step, j)) - One(Forfeits(s, step, j))
  {
    DebtorCount(s, j);
    DebtorCount(Next(s, step, c), j);
    LossesAdd(s, step, j);
    ApiOwes(s, step, c, j);
    WorkersOwe(s, step, c, j);
    ReapersOwe(s, step, c, j);
  }

  // ---------- every run ----------

  /** How often job `j` became queued, was announced, and lost an announcement to a fault. */
  datatype Tally = Tally(queued: nat, announced: nat, forfeited: nat)

  ghost function TallyOf(trace: seq<Sys>, steps: seq<Step>, c: Config, n: nat, j: Uuid): Tally
    requires IsRun(trace, steps, c) && n <= |steps|
  {
    if n == 0 then Tally(0, 0, 0)
    else
      var t, k := TallyOf(trace, steps, c, n - 1, j), n - 1;
      Tally(t.queued + One(BecomesQueued(trace[k].db, trace[n].db, j)),
            t.announced + One(Announces(trace[k], steps[k], j)),
            t.forfeited + One(Forfeits(trace[k], steps[k], j)))
  }

  lemma DebtStepOfRun(trace: seq<Sys>, steps: seq<Step>, c: Config, k: nat, j: Uuid)
    requires IsRun(trace, steps, c) && k < |steps|
    ensures |Debtors(trace[k + 1], j)| ==
              |Debtors(trace[k], j)| + One(BecomesQueued(trace[k].db, trace[k + 1].db, j))
              - One(Announces(trace[k], steps[k], j)) - One(Forfeits(trace[k], steps[k], j))
  {
    AlwaysSysOk(trace, steps, c, k);
    Ordering.AlwaysKnows(trace, steps, c, k);
    GainsAdd(trace[k], steps[k], c, j);
    DebtStep(trace[k], steps[k], c, j);
  }

  /**
   Announcements are conserved: in every state of every run, the times a job became queued are
   the announcements made, plus those lost to faults, plus those still owed.
   */
  lemma {:induction false} AnnouncementsConserved(trace: seq<Sys>, steps: seq<Step>, c: Config, n: nat, j: Uuid)
    requires IsRun(trace, steps, c) && n <= |steps|
    ensures var t := TallyOf(trace, steps, c, n, j);
            t.queued == t.announced + t.forfeited + |Debtors(trace[n], j)|
  {
    if n > 0 {
      var k := n - 1;
      AnnouncementsConserved(trace, steps, c, k, j);
      DebtStepOfRun(trace, steps, c, k, j);
    }
  }
}
