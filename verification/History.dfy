/**
 What every column of a job row and an attempt row says about the past, in every run of
 transactions: each is read off the history of the row, without looking at how the transactions
 write it.
 */
module History {
  import opened Common
  import opened Database
  import opened Invariant
  import opened Lifecycle

  /** The database clock during a transaction; the two notes without a time stamp nothing. */
  function TimeOf(e: Event): int {
    match e
    case SetPhase(_, _) => 0
    case RecordDuration(_, _, _) => 0
    case MarkLost(_) => 0
    case _ => e.now
  }

  // ---------- jobs ----------

  /** Job `j` is in the table with the given status. */
  predicate HasStatus(db: Db, j: Uuid, status: JobStatus) {
    j in db.jobs && db.jobs[j].status == status
  }

  /** The row of `j` appears or changes. */
  predicate RowChanges(db: Db, db': Db, j: Uuid) {
    j in db'.jobs && (j !in db.jobs || db'.jobs[j] != db.jobs[j])
  }

  /** The time of the last transaction that wrote the row of `j`. */
  function ChangedAt(es: seq<Event>, j: Uuid): Option<int> {
    if es == [] then None
    else
      var before := es[..|es| - 1];
      if RowChanges(Run(EMPTY, before), Run(EMPTY, es), j) then Some(TimeOf(es[|es| - 1])) else ChangedAt(before, j)
  }

  /** The time of the last transaction that brought `j` into the given status. */
  function EnteredAt(es: seq<Event>, j: Uuid, status: JobStatus): Option<int> {
    if es == [] then None
    else
      var before := es[..|es| - 1];
      if HasStatus(Run(EMPTY, es), j, status) && !HasStatus(Run(EMPTY, before), j, status)
      then Some(TimeOf(es[|es| - 1])) else EnteredAt(before, j, status)
  }

  /** What one transaction does to the columns of a job row that no transition rule depends on. */
  ghost predicate JobColumnsMove(db: Db, db': Db, j: Uuid, now: int) {
    && (RowChanges(db, db', j) ==> db'.jobs[j].updatedAt == now)
    && (HasStatus(db', j, Queued) && !HasStatus(db, j, Queued) ==> db'.jobs[j].queueEnteredAt == now)
    && (HasStatus(db', j, Completed) && !HasStatus(db, j, Completed) ==> db'.jobs[j].completedAt == Some(now))
    && (j in db.jobs ==>
          && j in db'.jobs
          && (db'.jobs[j].queueEnteredAt == db.jobs[j].queueEnteredAt
              || (HasStatus(db', j, Queued) && !HasStatus(db, j, Queued)))
          && (db'.jobs[j].completedAt == db.jobs[j].completedAt
              || (HasStatus(db', j, Completed) && !HasStatus(db, j, Completed))))
  }

  lemma JobStep(db: Db, e: Event, j: Uuid)
    requires j in db.jobs ==> JobOk(db, j)
    ensures JobColumnsMove(db, Apply(db, e), j, TimeOf(e))
    ensures j in Apply(db, e).jobs && j !in db.jobs ==>
              && e.Create? && e.job == j && CreateTakes(db, j, e.maxRetries)
              && Apply(db, e).jobs[j].priority == e.priority && Apply(db, e).jobs[j].maxRetries == e.maxRetries
              && Apply(db, e).jobs[j].completedAt == None && HasStatus(Apply(db, e), j, Queued)
    ensures j in db.jobs ==>
              && Apply(db, e).jobs[j].priority == db.jobs[j].priority
              && Apply(db, e).jobs[j].maxRetries == db.jobs[j].maxRetries
  {
  }

  /** Priority and budget of a job are, for good, those of the submission that created it. */
  lemma {:induction false} JobOrigin(es: seq<Event>, j: Uuid) returns (i: nat)
    requires j in Run(EMPTY, es).jobs
    ensures i < |es| && es[i].Create? && es[i].job == j && CreateTakes(Run(EMPTY, es[..i]), j, es[i].maxRetries)
    ensures Run(EMPTY, es).jobs[j].priority == es[i].priority
    ensures Run(EMPTY, es).jobs[j].maxRetries == es[i].maxRetries
  {
    i := |es| - 1;
    var before := es[..i];
    AlwaysInv(before);
    JobStep(Run(EMPTY, before), es[i], j);
    if j in Run(EMPTY, before).jobs {
      i := JobOrigin(before, j);
      assert before[..i] == es[..i];
    }
  }

  /**
   In every run the time stamps of a job row tell when it was last written, when it last became
   queued, and when it was completed, if it was.
   */
  lemma {:induction false} JobTimes(es: seq<Event>, j: Uuid)
    ensures var db := Run(EMPTY, es);
            if j in db.jobs
            then ChangedAt(es, j) == Some(db.jobs[j].updatedAt)
                 && EnteredAt(es, j, Queued) == Some(db.jobs[j].queueEnteredAt)
                 && EnteredAt(es, j, Completed) == db.jobs[j].completedAt
            else ChangedAt(es, j) == EnteredAt(es, j, Queued) == EnteredAt(es, j, Completed) == None
  {
    if es != [] {
      var n := |es| - 1;
      JobTimes(es[..n], j);
      AlwaysInv(es[..n]);
      JobStep(Run(EMPTY, es[..n]), es[n], j);
    }
  }

  // ---------- attempts ----------

  predicate IsRunning(db: Db, a: Uuid) {
    a in db.attempts && db.attempts[a].status == Running
  }

  /** The transaction that ended attempt `a`. */
  function EndOf(es: seq<Event>, a: Uuid): Option<Event> {
    if es == [] then None
    else
      var before := es[..|es| - 1];
      if IsRunning(Run(EMPTY, before), a) && !IsRunning(Run(EMPTY, es), a) then Some(es[|es| - 1]) else EndOf(before, a)
  }

  /** The transaction that last claimed or renewed attempt `a`, while it was running. */
  function TouchOf(es: seq<Event>, a: Uuid): Option<Event> {
    if es == [] then None
    else
      var before, e := es[..|es| - 1], es[|es| - 1];
      if a !in Run(EMPTY, before).attempts && a in Run(EMPTY, es).attempts then Some(e)
      else if e.Renew? && e.attempt == a && IsRunning(Run(EMPTY, before), a) then Some(e)
      else TouchOf(before, a)
  }

  /** The phase last noted for attempt `a` while it was running. */
  function PhaseNoted(es: seq<Event>, a: Uuid): Phase {
    if es == [] then Claiming
    else
      var before, e := es[..|es| - 1], es[|es| - 1];
      if e.SetPhase? && e.attempt == a && IsRunning(Run(EMPTY, before), a) then e.phase else PhaseNoted(before, a)
  }

  /** The value last noted for a duration of attempt `a`, running or not. */
  function DurationNoted(es: seq<Event>, a: Uuid, field: DurationField): Option<nat> {
    if es == [] then None
    else
      var before, e := es[..|es| - 1], es[|es| - 1];
      if e.RecordDuration? && e.attempt == a && e.field == field && a in Run(EMPTY, before).attempts
      then Some(e.ms) else DurationNoted(before, a, field)
  }

  /** How an ended attempt's row names its end. */
  predicate EndedBy(att: Attempt, a: Uuid, e: Event) {
    && att.finishedAt == Some(TimeOf(e))
    && match att.status
       case Running => false
       case Succeeded => e.Complete? && e.job == att.job && e.attempt == a && att.category == None
       case Failed => e.Fail? && e.job == att.job && e.attempt == a && att.category == Some(ProcessingFailure)
       case Expired => e.Recover? && e.job == att.job && att.category == Some(e.reason)
                       && (e.expected.Some? ==> e.expected.value == a)
  }

  /** A new attempt row, as the claim writes it. */
  ghost predicate ClaimedBy(db: Db, att: Attempt, a: Uuid, e: Event) {
    && e.Claim? && e.attempt == a && e.job == att.job && e.worker == att.worker
    && HasStatus(db, att.job, Queued) && att.number == db.jobs[att.job].retryCount + 1
    && att.queueEnteredAt == db.jobs[att.job].queueEnteredAt
  }

  lemma ClaimStep(db: Db, e: Event, a: Uuid)
    requires a !in db.attempts && a in Apply(db, e).attempts
    ensures var att := Apply(db, e).attempts[a];
            && ClaimedBy(db, att, a, e)
            && att.status == Running && att.finishedAt == None && att.category == None
            && att.phase == Claiming && att.durations == map[]
            && att.lastHeartbeat == e.now && att.leaseExpiresAt == e.now + e.ttl
  {
  }

  /** The transactions that can end an attempt know its job. */
  ghost predicate KnowsJob(db: Db, e: Event) {
    (e.Complete? || e.Fail? || e.Recover?) && e.job in db.jobs ==> JobOk(db, e.job)
  }

  lemma AlwaysKnowsJob(es: seq<Event>, e: Event)
    ensures KnowsJob(Run(EMPTY, es), e)
  {
    AlwaysInv(es);
  }

  /** The row of a known attempt keeps its origin. */
  lemma OriginStep(db: Db, e: Event, a: Uuid)
    requires a in db.attempts
    ensures a in Apply(db, e).attempts
    ensures var att, att' := db.attempts[a], Apply(db, e).attempts[a];
            && att'.job == att.job && att'.worker == att.worker && att'.number == att.number
            && att'.queueEnteredAt == att.queueEnteredAt
  {
  }

  /** An attempt ends at most by a transaction that says so. */
  lemma EndStep(db: Db, e: Event, a: Uuid)
    requires a in db.attempts && KnowsJob(db, e)
    requires db.attempts[a].status == Running ==> db.attempts[a].category == None
    ensures a in Apply(db, e).attempts
    ensures var att, att' := db.attempts[a], Apply(db, e).attempts[a];
            if att.status == Running && att'.status != Running then EndedBy(att', a, e)
            else att'.status == att.status && att'.finishedAt == att.finishedAt && att'.category == att.category
  {
  }

  /** Lease and heartbeat of a known attempt move only when it is renewed while running. */
  lemma LeaseStep(db: Db, e: Event, a: Uuid)
    requires a in db.attempts && AttemptOk(db, a)
    ensures a in Apply(db, e).attempts
    ensures var att, att' := db.attempts[a], Apply(db, e).attempts[a];
            if e.Renew? && e.attempt == a && att.status == Running
            then att'.lastHeartbeat == e.now && att'.leaseExpiresAt == e.now + e.ttl
            else att'.lastHeartbeat == att.lastHeartbeat && att'.leaseExpiresAt == att.leaseExpiresAt
  {
  }

  lemma PhaseStep(db: Db, e: Event, a: Uuid)
    requires a in db.attempts
    ensures a in Apply(db, e).attempts
    ensures var att, att' := db.attempts[a], Apply(db, e).attempts[a];
            att'.phase == if att.status == Running && att'.status == Succeeded then Finished
                          else if e.SetPhase? && e.attempt == a && att.status == Running then e.phase
                          else att.phase
  {
  }

  lemma DurationStep(db: Db, e: Event, a: Uuid)
    requires a in db.attempts
    ensures a in Apply(db, e).attempts
    ensures var att, att' := db.attempts[a], Apply(db, e).attempts[a];
            att'.durations == if e.RecordDuration? && e.attempt == a then att.durations[e.field := e.ms]
                              else att.durations
  {
  }

  /** Every attempt stems from one claim, which found its job queued, and keeps what that wrote. */
  lemma {:induction false} AttemptOrigin(es: seq<Event>, a: Uuid) returns (i: nat)
    requires a in Run(EMPTY, es).attempts
    ensures i < |es| && a !in Run(EMPTY, es[..i]).attempts
    ensures ClaimedBy(Run(EMPTY, es[..i]), Run(EMPTY, es).attempts[a], a, es[i])
  {
    i := |es| - 1;
    var before := es[..i];
    if a in Run(EMPTY, before).attempts {
      OriginStep(Run(EMPTY, before), es[i], a);
      i := AttemptOrigin(before, a);
      assert before[..i] == es[..i];
    } else {
      ClaimStep(Run(EMPTY, before), es[i], a);
    }
  }

  /** The row of attempt `a` names its end, if it has one. */
  predicate NamesEnd(db: Db, a: Uuid, end: Option<Event>) {
    if a !in db.attempts then end == None
    else if end == None then
      db.attempts[a].status == Running && db.attempts[a].finishedAt == None && db.attempts[a].category == None
    else EndedBy(db.attempts[a], a, end.value)
  }

  lemma NamesEndStep(db: Db, e: Event, a: Uuid, end: Option<Event>)
    requires NamesEnd(db, a, end) && KnowsJob(db, e)
    ensures NamesEnd(Apply(db, e), a, if IsRunning(db, a) && !IsRunning(Apply(db, e), a) then Some(e) else end)
  {
    if a in db.attempts {
      EndStep(db, e, a);
    } else if a in Apply(db, e).attempts {
      ClaimStep(db, e, a);
    }
  }

  /**
   In every run an attempt that has ended names the end: its status, its failure category and its
   finish time are those of the one transaction that ended it; a running attempt has neither.
   */
  lemma {:induction false} AttemptEnd(es: seq<Event>, a: Uuid)
    ensures NamesEnd(Run(EMPTY, es), a, EndOf(es, a))
  {
    if es != [] {
      var n := |es| - 1;
      AttemptEnd(es[..n], a);
      AlwaysKnowsJob(es[..n], es[n]);
      NamesEndStep(Run(EMPTY, es[..n]), es[n], a, EndOf(es[..n], a));
    }
  }

  /** In every run the lease and the heartbeat of an attempt are those of its last claim or renewal. */
  lemma {:induction false} AttemptLease(es: seq<Event>, a: Uuid)
    ensures var db := Run(EMPTY, es);
            if a in db.attempts
            then match TouchOf(es, a)
                 case None => false
                 case Some(e) => (e.Claim? || e.Renew?) && db.attempts[a].lastHeartbeat == e.now
                                 && db.attempts[a].leaseExpiresAt == e.now + e.ttl
            else TouchOf(es, a) == None
  {
    if es != [] {
      var n := |es| - 1;
      AttemptLease(es[..n], a);
      var db := Run(EMPTY, es[..n]);
      if a in db.attempts {
        AlwaysInv(es[..n]);
        assert AttemptOk(db, a);
        LeaseStep(db, es[n], a);
      } else if a in Run(EMPTY, es).attempts {
        ClaimStep(db, es[n], a);
      }
    }
  }

  /** The durations of an attempt, as noted so far. */
  ghost predicate DurationsAre(es: seq<Event>, a: Uuid, durations: map<DurationField, nat>) {
    forall f :: DurationNoted(es, a, f) == if f in durations then Some(durations[f]) else None
  }

  /**
   In every run the phase of an attempt is the last one noted while it ran, unless it has
   succeeded, and its durations are the last ones noted at any time.
   */
  lemma {:induction false} AttemptNotes(es: seq<Event>, a: Uuid)
    ensures var db := Run(EMPTY, es);
            if a in db.attempts
            then var att := db.attempts[a];
                 && att.phase == (if att.status == Succeeded then Finished else PhaseNoted(es, a))
                 && DurationsAre(es, a, att.durations)
            else PhaseNoted(es, a) == Claiming && DurationsAre(es, a, map[])
  {
    if es != [] {
      var n := |es| - 1;
      AttemptNotes(es[..n], a);
      var db := Run(EMPTY, es[..n]);
      if a in db.attempts {
        AttemptEnd(es[..n], a);
        AlwaysKnowsJob(es[..n], es[n]);
        EndStep(db, es[n], a);
        PhaseStep(db, es[n], a);
        DurationStep(db, es[n], a);
      } else if a in Run(EMPTY, es).attempts {
        ClaimStep(db, es[n], a);
      }
    }
  }
}
