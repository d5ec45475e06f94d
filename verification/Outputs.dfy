/**
 Producing the output set, one task after the other or all at once, and checking it from the
 outside.
 */
module Outputs {
  import opened Common
  import opened Database
  import opened Lifecycle

  datatype Task = Task(kind: OutputType, fileName: string, contentType: string)

  const TASKS: seq<Task> := [
    Task(Video360, "360p.mp4", "video/mp4"),
    Task(Video720, "720p.mp4", "video/mp4"),
    Task(Video1080, "1080p.mp4", "video/mp4"),
    Task(Thumbnail, "thumbnail.jpg", "image/jpeg")
  ]

  /** What running FFmpeg for one task, and then looking at its file, comes to. */
  datatype Outcome = Done(size: nat) | FfmpegError(message: string) | StatError(message: string)

  datatype Produced = Produced(kind: OutputType, localPath: string, size: nat, contentType: string)

  datatype Result = Outputs(outputs: seq<Produced>) | TaskFailed(kind: OutputType, cause: Outcome)

  function ProducedBy(task: Task, workDir: string, size: nat): Produced {
    Produced(task.kind, workDir + "/" + task.fileName, size, task.contentType)
  }

  /** One FFmpeg run after the other, stopping at the first failure. */
  function InOrder(tasks: seq<Task>, outcomes: seq<Outcome>, workDir: string): Result
    requires |tasks| == |outcomes|
  {
    if tasks == [] then Outputs([])
    else
      var n := |tasks| - 1;
      match InOrder(tasks[..n], outcomes[..n], workDir)
      case TaskFailed(kind, cause) => TaskFailed(kind, cause)
      case Outputs(done) =>
        if outcomes[n].Done? then Outputs(done + [ProducedBy(tasks[n], workDir, outcomes[n].size)])
        else TaskFailed(tasks[n].kind, outcomes[n])
  }

  predicate AllDone(outcomes: seq<Outcome>) {
    forall i :: 0 <= i < |outcomes| ==> outcomes[i].Done?
  }

  /** In-order success means that every task succeeded, and lists the outputs in task order. */
  lemma {:induction false} InOrderMeaning(tasks: seq<Task>, outcomes: seq<Outcome>, workDir: string)
    requires |tasks| == |outcomes|
    ensures var r := InOrder(tasks, outcomes, workDir);
            && (r.Outputs? <==> AllDone(outcomes))
            && (r.Outputs? ==>
                  && |r.outputs| == |tasks|
                  && forall i :: 0 <= i < |tasks| ==>
                       r.outputs[i] == Produced(tasks[i].kind, workDir + "/" + tasks[i].fileName, outcomes[i].size,
                                                tasks[i].contentType))
  {
    if tasks != [] {
      var n := |tasks| - 1;
      InOrderMeaning(tasks[..n], outcomes[..n], workDir);
      if AllDone(outcomes) {
        assert AllDone(outcomes[..n]);
      }
      if AllDone(outcomes[..n]) && outcomes[n].Done? {
        forall i | 0 <= i < |outcomes| ensures outcomes[i].Done? {
          assert i < n ==> outcomes[..n][i].Done?;
        }
      }
    }
  }

  /** In-order failure reports the first task that failed, and how it failed. */
  lemma {:induction false} InOrderFailure(tasks: seq<Task>, outcomes: seq<Outcome>, workDir: string) returns (i: nat)
    requires |tasks| == |outcomes| && InOrder(tasks, outcomes, workDir).TaskFailed?
    ensures i < |tasks| && !outcomes[i].Done? && AllDone(outcomes[..i])
    ensures InOrder(tasks, outcomes, workDir) == TaskFailed(tasks[i].kind, outcomes[i])
  {
    var n := |tasks| - 1;
    if InOrder(tasks[..n], outcomes[..n], workDir).TaskFailed? {
      i := InOrderFailure(tasks[..n], outcomes[..n], workDir);
      assert outcomes[..n][..i] == outcomes[..i];
    } else {
      i := n;
      InOrderMeaning(tasks[..n], outcomes[..n], workDir);
    }
  }

  method RunSequential(tasks: seq<Task>, outcomes: seq<Outcome>, workDir: string) returns (r: Result)
    requires |tasks| == |outcomes|
    ensures r == InOrder(tasks, outcomes, workDir)
  {
    var blank := Produced(Video360, "", 0, "");
    var outputs := new Produced[|tasks|](_ => blank);
    for i := 0 to |tasks|
      invariant InOrder(tasks[..i], outcomes[..i], workDir) == Outputs(outputs[..i])
    {
      assert tasks[..i + 1][..i] == tasks[..i] && outcomes[..i + 1][..i] == outcomes[..i];
      if !outcomes[i].Done? {
        r := TaskFailed(tasks[i].kind, outcomes[i]);
        StaysFailed(tasks, outcomes, workDir, i + 1);
        return;
      }
      outputs[i] := ProducedBy(tasks[i], workDir, outcomes[i].size);
    }
    assert tasks[..|tasks|] == tasks && outcomes[..|tasks|] == outcomes;
    r := Outputs(outputs[..]);
  }

  lemma {:induction false} StaysFailed(tasks: seq<Task>, outcomes: seq<Outcome>, workDir: string, k: nat)
    requires |tasks| == |outcomes| && k <= |tasks|
    requires InOrder(tasks[..k], outcomes[..k], workDir).TaskFailed?
    ensures InOrder(tasks, outcomes, workDir) == InOrder(tasks[..k], outcomes[..k], workDir)
  {
    if k == |tasks| {
      assert tasks[..k] == tasks && outcomes[..k] == outcomes;
    } else {
      var n := |tasks| - 1;
      assert tasks[..n][..k] == tasks[..k] && outcomes[..n][..k] == outcomes[..k];
      StaysFailed(tasks[..n], outcomes[..n], workDir, k);
    }
  }

  /** `order` lists each task index once: the order in which the goroutines finish. */
  ghost predicate IsSchedule(order: seq<nat>, n: nat) {
    && |order| == n
    && (forall k :: 0 <= k < n ==> order[k] < n)
    && (forall i, k :: 0 <= i < k < n ==> order[i] != order[k])
    && (forall i :: 0 <= i < n ==> i in order)
  }

  /**
   All tasks at once. They finish in any order; once one has failed the shared context is
   cancelled, and each task that finishes later may or may not be killed by that. Whatever the
   schedule, the result is that of the sequential run, except that a failed run may report
   another output that failed on its own: the first such one to finish.
   */
  method RunParallel(tasks: seq<Task>, outcomes: seq<Outcome>, workDir: string, order: seq<nat>, killed: seq<bool>)
    returns (r: Result)
    requires |tasks| == |outcomes| == |killed| && IsSchedule(order, |tasks|)
    ensures r.Outputs? <==> InOrder(tasks, outcomes, workDir).Outputs?
    ensures r.Outputs? ==> r == InOrder(tasks, outcomes, workDir)
    ensures r.TaskFailed? ==>
              exists k :: && 0 <= k < |order| && !outcomes[order[k]].Done?
                          && r == TaskFailed(tasks[order[k]].kind, outcomes[order[k]])
                          && forall m :: 0 <= m < k ==> outcomes[order[m]].Done?
  {
    var blank := Produced(Video360, "", 0, "");
    var outputs := new Produced[|tasks|](_ => blank);
    var failed: Option<nat> := None;
    for k := 0 to |order|
      invariant failed.None? ==> forall m :: 0 <= m < k ==>
                  outcomes[order[m]].Done?
                  && outputs[order[m]] == ProducedBy(tasks[order[m]], workDir, outcomes[order[m]].size)
      invariant failed.Some? ==> failed.value < k && !outcomes[order[failed.value]].Done?
      invariant failed.Some? ==> forall m :: 0 <= m < failed.value ==> outcomes[order[m]].Done?
    {
      var i := order[k];
      if failed.Some? && killed[k] {
        // reported as cancelled, but the group keeps its first error
      } else if outcomes[i].Done? {
        outputs[i] := ProducedBy(tasks[i], workDir, outcomes[i].size);
      } else if failed.None? {
        failed := Some(k);
      }
    }
    InOrderMeaning(tasks, outcomes, workDir);
    if failed.Some? {
      var i := order[failed.value];
      r := TaskFailed(tasks[i].kind, outcomes[i]);
    } else {
      forall i | 0 <= i < |tasks|
        ensures outcomes[i].Done? && outputs[i] == ProducedBy(tasks[i], workDir, outcomes[i].size)
      {
        assert i in order;
      }
      r := Outputs(outputs[..]);
    }
  }

  // ---------- the checker used from outside ----------

  function TypeName(t: OutputType): string {
    match t
    case Video360 => "video_360p"
    case Video720 => "video_720p"
    case Video1080 => "video_1080p"
    case Thumbnail => "thumbnail"
  }

  const NAMES: seq<string> := ["video_360p", "video_720p", "video_1080p", "thumbnail"]

  ghost predicate Distinct<T>(s: seq<T>) {
    forall i, k :: 0 <= i < k < |s| ==> s[i] != s[k]
  }

  lemma {:induction false} DistinctCounts<T>(s: seq<T>, x: T)
    requires Distinct(s)
    ensures multiset(s)[x] == if x in s then 1 else 0
  {
    if s != [] {
      var n := |s| - 1;
      DistinctCounts(s[..n], x);
      assert s == s[..n] + [s[n]];
    }
  }

  lemma RepeatCounts<T>(s: seq<T>, i: nat, k: nat)
    requires i < k < |s| && s[i] == s[k]
    ensures multiset(s)[s[i]] >= 2
  {
    assert s == s[..k] + [s[k]] + s[k + 1..];
    assert s[i] in s[..k];
  }

  /** Being a permutation of distinct names, spelled out. */
  lemma PermutationMeans<T(!new)>(s: seq<T>, names: seq<T>)
    requires Distinct(names)
    ensures multiset(s) == multiset(names) <==>
              |s| == |names| && Distinct(s) && (forall x :: x in s <==> x in names)
  {
    if multiset(s) == multiset(names) {
      assert |multiset(s)| == |s| && |multiset(names)| == |names|;
      forall x ensures x in s <==> x in names {
        assert x in multiset(s) <==> x in multiset(names);
      }
      forall i, k | 0 <= i < k < |s| ensures s[i] != s[k] {
        if s[i] == s[k] {
          RepeatCounts(s, i, k);
          DistinctCounts(names, s[i]);
        }
      }
    }
    if |s| == |names| && Distinct(s) && (forall x :: x in s <==> x in names) {
      forall x ensures multiset(s)[x] == multiset(names)[x] {
        DistinctCounts(s, x);
        DistinctCounts(names, x);
      }
    }
  }

  /** The configured tasks, one by one: name of the type, of the file, and its content type. */
  lemma TaskNames(i: nat)
    requires i < |TASKS|
    ensures TypeName(TASKS[i].kind) == NAMES[i]
    ensures if TASKS[i].kind == Thumbnail
            then TASKS[i].fileName == TypeName(TASKS[i].kind) + ".jpg" && TASKS[i].contentType == "image/jpeg"
            else "video_" + TASKS[i].fileName == TypeName(TASKS[i].kind) + ".mp4" && TASKS[i].contentType == "video/mp4"
  {
  }

  /** No two tasks write the same file. */
  lemma PathsDiffer(workDir: string, i: nat, k: nat)
    requires i < k < |TASKS|
    ensures workDir + "/" + TASKS[i].fileName != workDir + "/" + TASKS[k].fileName
  {
    var p, q := workDir + "/" + TASKS[i].fileName, workDir + "/" + TASKS[k].fileName;
    assert p[|workDir| + 1..] == TASKS[i].fileName && q[|workDir| + 1..] == TASKS[k].fileName;
    assert TASKS[i].fileName[0] != TASKS[k].fileName[0];
  }

  lemma NamesDistinct()
    ensures Distinct(NAMES)
  {
    assert NAMES[0][6] != NAMES[1][6] && NAMES[0][6] != NAMES[2][6] && NAMES[1][6] != NAMES[2][6];
    assert NAMES[3][0] != NAMES[0][0] && NAMES[3][0] != NAMES[1][0] && NAMES[3][0] != NAMES[2][0];
  }

  /** Marks each type it meets; a type that is unknown or already marked ends the search. */
  method MarkTypes<T(==, !new)>(types: seq<T>, names: seq<T>) returns (complete: bool)
    ensures complete <==> |types| == |names| && Distinct(types) && forall x :: x in types <==> x in names
  {
    if |types| != |names| {
      return false;
    }
    var want: map<T, bool> := map x | x in names :: false;
    for i := 0 to |types|
      invariant forall x :: x in want <==> x in names
      invariant forall x :: x in want ==> (want[x] <==> x in types[..i])
      invariant forall k :: 0 <= k < i ==> types[k] in names
      invariant forall k, m :: 0 <= k < m < i ==> types[k] != types[m]
    {
      if types[i] !in want {
        assert types[i] in types;
        return false;
      }
      if want[types[i]] {
        assert types[i] in types[..i];
        return false;
      }
      want := want[types[i] := true];
      assert types[..i + 1] == types[..i] + [types[i]];
    }
    assert types[..|types|] == types;
    for i := 0 to |names|
      invariant forall k :: 0 <= k < i ==> names[k] in types
    {
      if !want[names[i]] {
        assert names[i] in names;
        return false;
      }
    }
    complete := true;
  }

  /** Accepts exactly the permutations of the four output types. */
  method CompleteOutputSet(types: seq<string>) returns (complete: bool)
    ensures complete <==> multiset(types) == multiset(NAMES)
  {
    NamesDistinct();
    PermutationMeans(types, NAMES);
    complete := MarkTypes(types, NAMES);
  }

  function Named(ts: seq<OutputType>): seq<string> {
    seq(|ts|, i requires 0 <= i < |ts| => TypeName(ts[i]))
  }

  lemma TypeNamesDiffer(t: OutputType, u: OutputType)
    ensures TypeName(t) == TypeName(u) ==> t == u
    ensures TypeName(t) in NAMES
  {
    var s, v := TypeName(t), TypeName(u);
    assert |s| >= 9 && |v| >= 9;
    if t != u {
      assert s[0] != v[0] || s[6] != v[6];
    }
  }

  lemma {:induction false} NamedMultiset(ts: seq<OutputType>)
    requires Enumerates(ts, {Video360, Video720, Video1080, Thumbnail})
    ensures multiset(Named(ts)) == multiset(NAMES)
  {
    var s := Named(ts);
    forall i, k | 0 <= i < k < |s| ensures s[i] != s[k] {
      TypeNamesDiffer(ts[i], ts[k]);
    }
    forall x ensures x in s <==> x in NAMES {
      if x in s {
        var i :| 0 <= i < |s| && s[i] == x;
        TypeNamesDiffer(ts[i], ts[i]);
      }
      if x in NAMES {
        var t := if x == NAMES[0] then Video360 else if x == NAMES[1] then Video720
                 else if x == NAMES[2] then Video1080 else Thumbnail;
        assert t in Elements(ts);
        var i :| 0 <= i < |ts| && ts[i] == t;
        assert s[i] == x;
      }
    }
    NamesDistinct();
    forall x ensures multiset(s)[x] == multiset(NAMES)[x] {
      DistinctCounts(s, x);
      DistinctCounts(NAMES, x);
    }
  }

  /**
   Whatever happens between the two queries of the outputs endpoint, and in whatever order the
   rows come back, a client that was told "completed" receives an output set that the benchmark's
   checker accepts.
   */
  lemma ReaderSeesCompleteSet(es: seq<Event>, between: seq<Event>, j: Uuid, ts: seq<OutputType>)
    requires CompletesInFull(es) && IsCompleted(Run(EMPTY, es), j)
    requires Enumerates(ts, OutputsOf(Run(EMPTY, es + between), j).Keys)
    ensures multiset(Named(ts)) == multiset(NAMES)
  {
    TwoQueryReader(es, between, j);
    var keys := OutputsOf(Run(EMPTY, es + between), j).Keys;
    assert keys == {Video360, Video720, Video1080, Thumbnail} by {
      forall t: OutputType ensures t in keys && t in {Video360, Video720, Video1080, Thumbnail} {
        assert t in OutputsOf(Run(EMPTY, es + between), j);
        match t
        case Video360 =>
        case Video720 =>
        case Video1080 =>
        case Thumbnail =>
      }
    }
    NamedMultiset(ts);
  }
}
