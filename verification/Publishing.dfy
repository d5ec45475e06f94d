/**
 Published objects are never overwritten: the URLs of a completed job go on naming exactly what
 its completing attempt uploaded, whatever stale workers still upload.
 */
module Publishing {
  import opened Common
  import opened Database
  import opened Invariant
  import opened Lifecycle
  import opened ObjectKeys
  import opened System
  import Outputs

  /** What a worker has in hand: its own, not yet completed attempt, and faithful uploads. */
  ghost predicate WorkOk(s: Sys, c: Config, w: Uuid)
    requires IsWorking(s, w)
  {
    var pc := s.workers[w];
    && OwnsAttempt(s.db, w, pc)
    && (pc.files == [] || FullSet(pc.files))
    && (forall i :: i in pc.uploaded ==> Uploaded(s.store, c, pc, i))
  }

  predicate OwnsAttempt(db: Db, w: Uuid, pc: WorkerPc)
    requires pc.Working?
  {
    && pc.attempt in db.attempts
    && db.attempts[pc.attempt].job == pc.job
    && db.attempts[pc.attempt].worker == w
    && db.attempts[pc.attempt].status != Succeeded
  }

  /** File `i` lies under its key in the store. */
  predicate Uploaded(store: map<string, string>, c: Config, pc: WorkerPc, i: nat)
    requires pc.Working?
  {
    i < |pc.files| && FileKey(c, pc, i) in store && store[FileKey(c, pc, i)] == pc.files[i].content
  }

  /** Where the object of an output lies. */
  function ObjectOf(c: Config, j: Uuid, a: Uuid, t: OutputType): string {
    c.outputPrefix + "/" + Text(j) + "/" + Text(a) + "/" + Outputs.TypeName(t)
  }

  /** The address of that object behind the CDN, or on this host if there is no CDN. */
  function AddressOf(c: Config, j: Uuid, a: Uuid, t: OutputType): string {
    c.cdnBase + "/" + ObjectOf(c, j, a, t)
  }

  /** The worker's way of putting key and URL together comes to the same. */
  lemma KeysAndUrls(c: Config, j: Uuid, a: Uuid, t: OutputType)
    ensures Key(c.outputPrefix, j, a, t) == ObjectOf(c, j, a, t)
    ensures CdnUrl(c.cdnBase, Key(c.outputPrefix, j, a, t)) == AddressOf(c, j, a, t)
  {
    if c.cdnBase == "" {
      assert AddressOf(c, j, a, t) == "/" + ObjectOf(c, j, a, t);
    }
  }

  /** An output row gives the address of an object in the store, and its size. */
  ghost predicate RowOk(s: Sys, c: Config, j: Uuid, t: OutputType)
    requires (j, t) in s.db.outputs
  {
    var row := s.db.outputs[(j, t)];
    var key := ObjectOf(c, j, row.attempt, t);
    && row.attempt in s.db.attempts && s.db.attempts[row.attempt].status == Succeeded
    && key in s.store
    && row.url == AddressOf(c, j, row.attempt, t)
    && row.size == |s.store[key]|
  }

  ghost predicate PubOk(s: Sys, c: Config) {
    && Inv(s.db)
    && (forall w :: IsWorking(s, w) ==> WorkOk(s, c, w))
    && (forall j, t :: (j, t) in s.db.outputs ==> RowOk(s, c, j, t))
  }

  // ---------- transactions and attempts ----------

  /** The row keeps its job and worker, and stays succeeded once it is. */
  predicate Carries(att: Attempt, att': Attempt) {
    att'.job == att.job && att'.worker == att.worker && (att.status == Succeeded ==> att'.status == Succeeded)
  }

  lemma QuietCarries(db: Db, db': Db, a: Uuid)
    requires Cosmetic(db, db') && a in db.attempts
    ensures a in db'.attempts && Carries(db.attempts[a], db'.attempts[a])
    ensures db'.attempts[a].status == db.attempts[a].status
  {
    assert Similar(db.attempts[a], db'.attempts[a]);
  }

  lemma EndCarries(db: Db, db': Db, j: Uuid, b: Uuid, a: Uuid)
    requires Ended(db, db', j, b) && JobOk(db, j) && a in db.attempts
    ensures a in db'.attempts && Carries(db.attempts[a], db'.attempts[a])
    ensures db'.attempts[a].status == Succeeded ==>
              db.attempts[a].status == Succeeded || (a == b && db'.jobs[j].status == Completed)
  {
  }

  /** An attempt keeps its job and its worker, and only its own completion makes it succeed. */
  lemma AttemptFacts(db: Db, e: Event, a: Uuid)
    requires Inv(db) && a in db.attempts
    ensures var db' := Apply(db, e);
            && a in db'.attempts && Carries(db.attempts[a], db'.attempts[a])
            && (db'.attempts[a].status == Succeeded ==>
                  db.attempts[a].status == Succeeded || (e.Complete? && e.attempt == a))
  {
    StepShape(db, e);
    match ShapeOf(db, e)
    case Quiet => QuietCarries(db, Apply(db, e), a);
    case End(j, b) =>
      assert JobOk(db, j);
      EndCarries(db, Apply(db, e), j, b, a);
      EndStatus(db, e);
    case _ =>
  }

  lemma {:induction false} UpsertRow(rows: map<(Uuid, OutputType), OutputRow>, j: Uuid, a: Uuid, outs: seq<Output>,
                                     i: nat)
    requires i < |outs|
    requires forall k :: i < k < |outs| ==> outs[k].kind != outs[i].kind
    ensures (j, outs[i].kind) in Upsert(rows, j, a, outs)
    ensures Upsert(rows, j, a, outs)[(j, outs[i].kind)] == OutputRow(a, outs[i].url, outs[i].size)
  {
    var n := |outs| - 1;
    if i < n {
      UpsertRow(rows, j, a, outs[..n], i);
    }
  }

  // ---------- the store ----------

  /** The objects of a succeeded attempt are never written again. */
  lemma SucceededObjectsStay(s: Sys, step: Step, c: Config, j: Uuid, a: Uuid, t: OutputType)
    requires PubOk(s, c) && Enabled(s, step, c)
    requires a in s.db.attempts && s.db.attempts[a].status == Succeeded
    requires ObjectOf(c, j, a, t) in s.store
    ensures var key := ObjectOf(c, j, a, t);
            key in NextStore(s, step, c) && NextStore(s, step, c)[key] == s.store[key]
  {
    KeysAndUrls(c, j, a, t);
    if step.Upload? {
      var pc := s.workers[step.w];
      assert WorkOk(s, c, step.w);
      if FileKey(c, pc, step.i) == Key(c.outputPrefix, j, a, t) {
        KeyInjective(c.outputPrefix, pc.job, pc.attempt, pc.files[step.i].kind, c.outputPrefix, j, a, t);
        assert false;
      }
    }
  }

  lemma TaskKindsDiffer(i: nat, k: nat)
    requires i < |Outputs.TASKS| && k < |Outputs.TASKS| && Outputs.TASKS[i].kind == Outputs.TASKS[k].kind
    ensures i == k
  {
  }

  /** What a worker uploaded is safe from the other workers. */
  lemma OthersDoNotOverwrite(s: Sys, step: Step, c: Config, w: Uuid, i: nat)
    requires Enabled(s, step, c) && IsWorking(s, w) && WorkOk(s, c, w) && i in s.workers[w].uploaded
    requires step.Upload? ==> WorkOk(s, c, step.w)
    ensures Uploaded(NextStore(s, step, c), c, s.workers[w], i)
  {
    var pc := s.workers[w];
    assert Uploaded(s.store, c, pc, i);
    if step.Upload? {
      var other := s.workers[step.w];
      if FileKey(c, other, step.i) == FileKey(c, pc, i) {
        KeyInjective(c.outputPrefix, other.job, other.attempt, other.files[step.i].kind,
                     c.outputPrefix, pc.job, pc.attempt, pc.files[i].kind);
        assert step.w == w;
        TaskKindsDiffer(step.i, i);
      }
    }
  }

  // ---------- one step ----------

  lemma OwnershipStep(s: Sys, step: Step, c: Config, w: Uuid)
    requires Inv(s.db) && Enabled(s, step, c) && IsWorking(s, w) && step != CompleteJob(w)
    requires OwnsAttempt(s.db, w, s.workers[w])
    requires step.CompleteJob? ==> OwnsAttempt(s.db, step.w, s.workers[step.w])
    ensures OwnsAttempt(NextDb(s, step, c), w, s.workers[w])
  {
    var a := s.workers[w].attempt;
    if EventOf(s, step, c).Some? {
      AttemptFacts(s.db, EventOf(s, step, c).value, a);
    }
  }

  lemma ClaimOwns(s: Sys, w: Uuid, a: Uuid, c: Config)
    requires Enabled(s, ClaimJob(w, a), c) && ClaimTakes(s.db, s.workers[w].job, a, w)
    ensures OwnsAttempt(NextDb(s, ClaimJob(w, a), c), w, Working(s.workers[w].job, a, [], {}))
  {
  }

  /** A working worker that goes on working keeps its attempt and changes files or uploads only itself. */
  lemma PcStep(s: Sys, step: Step, c: Config, w: Uuid)
    requires Enabled(s, step, c) && IsWorking(s, w)
    requires w in NextWorkers(s, step, c) && NextWorkers(s, step, c)[w].Working?
    ensures var pc, pc' := s.workers[w], NextWorkers(s, step, c)[w];
            && step != CompleteJob(w)
            && pc'.job == pc.job && pc'.attempt == pc.attempt
            && (if step.Transcode? && step.w == w then pc.files == [] && FullSet(pc'.files) else pc'.files == pc.files)
            && pc'.uploaded == pc.uploaded + (if step.Upload? && step.w == w then {step.i} else {})
  {
    if step.Transcode? && step.w == w {
      GenerationIsFullSet(c, s.workers[w].job, step.outcomes, step.contents);
    }
  }

  lemma UploadsStep(s: Sys, step: Step, c: Config, w: Uuid, i: nat)
    requires Enabled(s, step, c) && IsWorking(s, w) && WorkOk(s, c, w)
    requires step.Upload? ==> WorkOk(s, c, step.w)
    requires w in NextWorkers(s, step, c) && NextWorkers(s, step, c)[w].Working?
    requires i in NextWorkers(s, step, c)[w].uploaded
    ensures Uploaded(NextStore(s, step, c), c, NextWorkers(s, step, c)[w], i)
  {
    PcStep(s, step, c, w);
    if i in s.workers[w].uploaded {
      OthersDoNotOverwrite(s, step, c, w, i);
      assert Uploaded(s.store, c, s.workers[w], i);
    }
  }

  lemma WorkStep(s: Sys, step: Step, c: Config, w: Uuid)
    requires PubOk(s, c) && Enabled(s, step, c) && IsWorking(Next(s, step, c), w)
    ensures WorkOk(Next(s, step, c), c, w)
  {
    if !IsWorking(s, w) {
      assert step.ClaimJob? && step.w == w;
      ClaimOwns(s, w, step.attempt, c);
    } else {
      PcStep(s, step, c, w);
      assert WorkOk(s, c, w);
      assert step.CompleteJob? ==> WorkOk(s, c, step.w);
      OwnershipStep(s, step, c, w);
      assert step.Upload? ==> WorkOk(s, c, step.w);
      forall i | i in NextWorkers(s, step, c)[w].uploaded
        ensures Uploaded(NextStore(s, step, c), c, NextWorkers(s, step, c)[w], i)
      {
        UploadsStep(s, step, c, w, i);
      }
    }
  }

  lemma OldRowStep(s: Sys, step: Step, c: Config, j: Uuid, t: OutputType)
    requires PubOk(s, c) && Enabled(s, step, c) && (j, t) in s.db.outputs
    ensures (j, t) in NextDb(s, step, c).outputs && NextDb(s, step, c).outputs[(j, t)] == s.db.outputs[(j, t)]
    ensures RowOk(Next(s, step, c), c, j, t)
  {
    var row := s.db.outputs[(j, t)];
    assert RowOk(s, c, j, t) && OutputOk(s.db, j, t) && JobOk(s.db, j);
    SucceededObjectsStay(s, step, c, j, row.attempt, t);
    if EventOf(s, step, c).Some? {
      var e := EventOf(s, step, c).value;
      AttemptFacts(s.db, e, row.attempt);
      CompletedIsFinalStep(s.db, e, j);
      assert t in OutputsOf(s.db, j);
      assert OutputsOf(Apply(s.db, e), j)[t] == row;
    }
  }

  /** File `i` of the worker at `pc` is what the row of its job and type names, byte for byte. */
  ghost predicate Published(s: Sys, c: Config, pc: WorkerPc, i: nat)
    requires pc.Working? && i < |pc.files|
  {
    var t := pc.files[i].kind;
    var key := ObjectOf(c, pc.job, pc.attempt, t);
    && (pc.job, t) in s.db.outputs
    && s.db.outputs[(pc.job, t)] ==
         OutputRow(pc.attempt, AddressOf(c, pc.job, pc.attempt, t), |pc.files[i].content|)
    && key in s.store && s.store[key] == pc.files[i].content
  }

  /** The row that the completion transaction leaves for file `i`. */
  lemma CompletionRow(db: Db, c: Config, pc: WorkerPc, i: nat, now: int)
    requires pc.Working? && FullSet(pc.files) && i < |pc.files| && CompleteTakes(db, pc.job, pc.attempt)
    ensures var rows := CompleteTx(db, pc.job, pc.attempt, RowsOf(c, pc), now).outputs;
            && (pc.job, pc.files[i].kind) in rows
            && rows[(pc.job, pc.files[i].kind)] ==
                 OutputRow(pc.attempt, AddressOf(c, pc.job, pc.attempt, pc.files[i].kind), |pc.files[i].content|)
  {
    KeysAndUrls(c, pc.job, pc.attempt, pc.files[i].kind);
    var outs := RowsOf(c, pc);
    forall k | i < k < |outs| ensures outs[k].kind != outs[i].kind {
      if outs[k].kind == outs[i].kind {
        TaskKindsDiffer(k, i);
      }
    }
    UpsertRow(db.outputs, pc.job, pc.attempt, outs, i);
  }

  /** A completion publishes exactly the files the worker uploaded. */
  lemma CompletionPublishes(s: Sys, w: Uuid, c: Config, i: nat)
    requires Enabled(s, CompleteJob(w), c) && WorkOk(s, c, w) && i < |s.workers[w].files|
    requires CompleteTakes(s.db, s.workers[w].job, s.workers[w].attempt)
    ensures Published(Next(s, CompleteJob(w), c), c, s.workers[w], i)
  {
    CompletionRow(s.db, c, s.workers[w], i, s.now);
    KeysAndUrls(c, s.workers[w].job, s.workers[w].attempt, s.workers[w].files[i].kind);
    assert i in s.workers[w].uploaded;
  }

  /** Only an effective completion adds an output row. */
  lemma RowAdded(db: Db, e: Event, j: Uuid, t: OutputType)
    requires Inv(db) && (j, t) !in db.outputs && (j, t) in Apply(db, e).outputs
    ensures e.Complete? && e.job == j && CompleteTakes(db, j, e.attempt)
    ensures exists i :: 0 <= i < |e.outs| && e.outs[i].kind == t
  {
    StepShape(db, e);
    if ShapeOf(db, e).End? {
      EndStatus(db, e);
    }
    UpsertKeys(db.outputs, e.job, e.attempt, e.outs, j, t);
  }

  /** Rows appear only through a completion, and belong to one of its files. */
  lemma RowsComeFromCompletion(s: Sys, step: Step, c: Config, j: Uuid, t: OutputType) returns (i: nat)
    requires Inv(s.db) && Enabled(s, step, c)
    requires (j, t) !in s.db.outputs && (j, t) in NextDb(s, step, c).outputs
    ensures step.CompleteJob?
    ensures s.workers[step.w].job == j && CompleteTakes(s.db, j, s.workers[step.w].attempt)
    ensures i < |s.workers[step.w].files| && s.workers[step.w].files[i].kind == t
  {
    var e := EventOf(s, step, c).value;
    RowAdded(s.db, e, j, t);
    i :| 0 <= i < |e.outs| && e.outs[i].kind == t;
  }

  lemma CompletionSucceeds(db: Db, j: Uuid, a: Uuid, outs: seq<Output>, now: int)
    requires CompleteTakes(db, j, a) && JobOk(db, j)
    ensures var db' := CompleteTx(db, j, a, outs, now); a in db'.attempts && db'.attempts[a].status == Succeeded
  {
  }

  lemma PublishedRowOk(s: Sys, w: Uuid, c: Config, i: nat)
    requires Enabled(s, CompleteJob(w), c) && WorkOk(s, c, w) && i < |s.workers[w].files|
    requires CompleteTakes(s.db, s.workers[w].job, s.workers[w].attempt) && JobOk(s.db, s.workers[w].job)
    ensures (s.workers[w].job, s.workers[w].files[i].kind) in NextDb(s, CompleteJob(w), c).outputs
    ensures RowOk(Next(s, CompleteJob(w), c), c, s.workers[w].job, s.workers[w].files[i].kind)
  {
    CompletionPublishes(s, w, c, i);
    CompletionSucceeds(s.db, s.workers[w].job, s.workers[w].attempt, RowsOf(c, s.workers[w]), s.now);
  }

  lemma NewRowStep(s: Sys, step: Step, c: Config, j: Uuid, t: OutputType)
    requires Inv(s.db) && Enabled(s, step, c) && (step.CompleteJob? ==> WorkOk(s, c, step.w))
    requires (j, t) !in s.db.outputs && (j, t) in NextDb(s, step, c).outputs
    ensures RowOk(Next(s, step, c), c, j, t)
  {
    var i := RowsComeFromCompletion(s, step, c, j, t);
    assert JobOk(s.db, j);
    PublishedRowOk(s, step.w, c, i);
  }

  lemma StepKeepsPubOk(s: Sys, step: Step, c: Config)
    requires PubOk(s, c) && Enabled(s, step, c)
    ensures PubOk(Next(s, step, c), c)
  {
    var s' := Next(s, step, c);
    if EventOf(s, step, c).Some? {
      StepKeepsInv(s.db, EventOf(s, step, c).value);
    }
    forall w | IsWorking(s', w) ensures WorkOk(s', c, w) {
      WorkStep(s, step, c, w);
    }
    forall j, t | (j, t) in s'.db.outputs ensures RowOk(s', c, j, t) {
      if (j, t) in s.db.outputs {
        OldRowStep(s, step, c, j, t);
      } else {
        assert step.CompleteJob? ==> WorkOk(s, c, step.w);
        NewRowStep(s, step, c, j, t);
      }
    }
  }

  /** In every state of every run, every output row names an object that is there, of its size. */
  lemma {:induction false} RowsNameObjects(trace: seq<Sys>, steps: seq<Step>, c: Config, n: nat)
    requires IsRun(trace, steps, c) && n <= |steps|
    ensures PubOk(trace[n], c)
  {
    if n > 0 {
      RowsNameObjects(trace, steps, c, n - 1);
      StepKeepsPubOk(trace[n - 1], steps[n - 1], c);
    }
  }

  /** The address of an output determines its job, its attempt and its type. */
  lemma AddressInjective(c: Config, j: Uuid, a: Uuid, t: OutputType, j': Uuid, a': Uuid, t': OutputType)
    requires AddressOf(c, j, a, t) == AddressOf(c, j', a', t')
    ensures j == j' && a == a' && t == t'
  {
    var n := |c.cdnBase| + 1;
    assert AddressOf(c, j, a, t)[n..] == ObjectOf(c, j, a, t);
    assert AddressOf(c, j', a', t')[n..] == ObjectOf(c, j', a', t');
    KeysAndUrls(c, j, a, t);
    KeysAndUrls(c, j', a', t');
    KeyInjective(c.outputPrefix, j, a, t, c.outputPrefix, j', a', t');
  }

  /** In every state of every run, no two output rows carry the same URL. */
  lemma UrlDeterminesRow(trace: seq<Sys>, steps: seq<Step>, c: Config, n: nat, j: Uuid, t: OutputType,
                         j': Uuid, t': OutputType)
    requires IsRun(trace, steps, c) && n <= |steps|
    requires (j, t) in trace[n].db.outputs && (j', t') in trace[n].db.outputs
    requires trace[n].db.outputs[(j, t)].url == trace[n].db.outputs[(j', t')].url
    ensures j == j' && t == t'
  {
    RowsNameObjects(trace, steps, c, n);
    assert RowOk(trace[n], c, j, t) && RowOk(trace[n], c, j', t');
    AddressInjective(c, j, trace[n].db.outputs[(j, t)].attempt, t, j', trace[n].db.outputs[(j', t')].attempt, t');
  }

  lemma PublishedStep(s: Sys, step: Step, c: Config, pc: WorkerPc, i: nat)
    requires PubOk(s, c) && Enabled(s, step, c)
    requires pc.Working? && i < |pc.files| && Published(s, c, pc, i)
    ensures Published(Next(s, step, c), c, pc, i)
  {
    var t := pc.files[i].kind;
    assert RowOk(s, c, pc.job, t);
    OldRowStep(s, step, c, pc.job, t);
    SucceededObjectsStay(s, step, c, pc.job, pc.attempt, t);
  }

  lemma {:induction false} PublishedLater(trace: seq<Sys>, steps: seq<Step>, c: Config, n: nat, m: nat,
                                          pc: WorkerPc, i: nat)
    requires IsRun(trace, steps, c) && n <= m <= |steps|
    requires pc.Working? && i < |pc.files| && Published(trace[n], c, pc, i)
    ensures Published(trace[m], c, pc, i)
    decreases m
  {
    if n < m {
      PublishedLater(trace, steps, c, n, m - 1, pc, i);
      RowsNameObjects(trace, steps, c, m - 1);
      PublishedStep(trace[m - 1], steps[m - 1], c, pc, i);
    }
  }

  /**
   From the completion step of a job on, through every later state of the run, each row of the
   job names the key of its completing attempt, and that key still holds exactly the bytes that
   attempt uploaded.
   */
  lemma PublishedForever(trace: seq<Sys>, steps: seq<Step>, c: Config, n: nat, m: nat, w: Uuid, i: nat)
    requires IsRun(trace, steps, c) && n < m <= |steps| && steps[n] == CompleteJob(w)
    requires i < |trace[n].workers[w].files|
    requires CompleteTakes(trace[n].db, trace[n].workers[w].job, trace[n].workers[w].attempt)
    ensures Published(trace[m], c, trace[n].workers[w], i)
  {
    var pc := trace[n].workers[w];
    assert Published(trace[n + 1], c, pc, i) by {
      RowsNameObjects(trace, steps, c, n);
      assert WorkOk(trace[n], c, w);
      CompletionPublishes(trace[n], w, c, i);
    }
    PublishedLater(trace, steps, c, n + 1, m, pc, i);
  }

  // ---------- every completed job ----------

  lemma CompletedByStep(s: Sys, step: Step, c: Config, j: Uuid)
    requires Inv(s.db) && Enabled(s, step, c) && !IsCompleted(s.db, j) && IsCompleted(NextDb(s, step, c), j)
    ensures step.CompleteJob? && s.workers[step.w].job == j && CompleteTakes(s.db, j, s.workers[step.w].attempt)
  {
    CompletionCounts(s.db, EventOf(s, step, c).value, j);
  }

  lemma CompletedAt(trace: seq<Sys>, steps: seq<Step>, c: Config, n: nat, j: Uuid)
    requires IsRun(trace, steps, c) && n < |steps|
    requires !IsCompleted(trace[n].db, j) && IsCompleted(trace[n + 1].db, j)
    ensures steps[n].CompleteJob? && trace[n].workers[steps[n].w].job == j
    ensures CompleteTakes(trace[n].db, j, trace[n].workers[steps[n].w].attempt)
  {
    SystemRunsTransactions(trace, steps, c, n);
    CompletedByStep(trace[n], steps[n], c, j);
  }

  /** A completed job was completed by a worker's completion step that took effect. */
  lemma {:induction false} CompletionStepOf(trace: seq<Sys>, steps: seq<Step>, c: Config, m: nat, j: Uuid)
    returns (n: nat, w: Uuid)
    requires IsRun(trace, steps, c) && m <= |steps| && IsCompleted(trace[m].db, j)
    ensures n < m && steps[n] == CompleteJob(w)
    ensures trace[n].workers[w].job == j && CompleteTakes(trace[n].db, j, trace[n].workers[w].attempt)
  {
    n := m - 1;
    if IsCompleted(trace[n].db, j) {
      n, w := CompletionStepOf(trace, steps, c, n, j);
    } else {
      CompletedAt(trace, steps, c, n, j);
      w := steps[n].w;
    }
  }

  /** The task that produces outputs of type `t`. */
  function TaskOf(t: OutputType): (i: nat)
    ensures i < |Outputs.TASKS| && Outputs.TASKS[i].kind == t
  {
    match t
    case Video360 => 0
    case Video720 => 1
    case Video1080 => 2
    case Thumbnail => 3
  }

  lemma CompletesWithFullSet(trace: seq<Sys>, steps: seq<Step>, c: Config, n: nat, w: Uuid)
    requires IsRun(trace, steps, c) && n < |steps| && steps[n] == CompleteJob(w)
    ensures FullSet(trace[n].workers[w].files)
  {
    RowsNameObjects(trace, steps, c, n);
    assert WorkOk(trace[n], c, w);
  }

  /**
   In every state of every run, whatever stale workers still upload: a completed job was completed
   by one worker with one file of every type, and the row of each type names the key of that
   worker's attempt, under which lie exactly the bytes of its file.
   */
  lemma CompletedJobIsPublished(trace: seq<Sys>, steps: seq<Step>, c: Config, m: nat, j: Uuid)
    returns (n: nat, w: Uuid)
    requires IsRun(trace, steps, c) && m <= |steps| && IsCompleted(trace[m].db, j)
    ensures n < m && steps[n] == CompleteJob(w)
    ensures trace[n].workers[w].job == j && FullSet(trace[n].workers[w].files)
    ensures trace[m].db.jobs[j].completed == Some(trace[n].workers[w].attempt)
    ensures forall t: OutputType ::
              trace[n].workers[w].files[TaskOf(t)].kind == t && Published(trace[m], c, trace[n].workers[w], TaskOf(t))
  {
    n, w := CompletionStepOf(trace, steps, c, m, j);
    CompletesWithFullSet(trace, steps, c, n, w);
    forall t: OutputType ensures Published(trace[m], c, trace[n].workers[w], TaskOf(t)) {
      PublishedForever(trace, steps, c, n, m, w, TaskOf(t));
    }
    assert Published(trace[m], c, trace[n].workers[w], TaskOf(Video360));
    RowNamesCompleter(trace, steps, c, m, j, Video360);
  }

  lemma RowNamesCompleter(trace: seq<Sys>, steps: seq<Step>, c: Config, m: nat, j: Uuid, t: OutputType)
    requires IsRun(trace, steps, c) && m <= |steps| && (j, t) in trace[m].db.outputs
    ensures j in trace[m].db.jobs && trace[m].db.jobs[j].completed == Some(trace[m].db.outputs[(j, t)].attempt)
  {
    SystemRunsTransactions(trace, steps, c, m);
    assert OutputOk(trace[m].db, j, t);
  }
}
