/**
 The reaper leadership lock: one Redis key with a time to live, taken with SETNX and then
 extended or deleted only by scripts that compare the stored reaper id first.
 */
module Leadership {
  import opened Common

  /** Whole seconds, at least one: configuration replaces anything else by its default. */
  type Ttl = n: int | 0 < n witness 1

  /** The key's value and the instant at which Redis drops it. */
  datatype Lock = Free | Held(owner: Uuid, expiresAt: int)

  predicate IsFree(lock: Lock, now: int) {
    lock.Free? || lock.expiresAt <= now
  }

  predicate HeldBy(lock: Lock, r: Uuid, now: int) {
    lock.Held? && lock.owner == r && now < lock.expiresAt
  }

  /** SET key r NX EX ttl. */
  function Acquire(lock: Lock, r: Uuid, ttl: Ttl, now: int): Lock {
    if IsFree(lock, now) then Held(r, now + ttl) else lock
  }

  function Refresh(lock: Lock, r: Uuid, ttl: Ttl, now: int): Lock {
    if HeldBy(lock, r, now) then Held(r, now + ttl) else lock
  }

  function Release(lock: Lock, r: Uuid, now: int): Lock {
    if HeldBy(lock, r, now) then Free else lock
  }

  /** The live key as the reapers' commands see and change it. */
  class LockKey {
    var lock: Lock

    constructor ()
      ensures lock == Free
    {
      lock := Free;
    }

    /** GET; an expired key reads as absent. */
    method Get(now: int) returns (owner: Option<Uuid>)
      ensures owner == None <==> IsFree(lock, now)
      ensures forall r: Uuid :: owner == Some(r) <==> HeldBy(lock, r, now)
    {
      owner := if lock.Held? && now < lock.expiresAt then Some(lock.owner) else None;
    }

    method AcquireLeadership(r: Uuid, ttl: Ttl, now: int) returns (locked: bool)
      modifies this
      ensures locked == IsFree(old(lock), now)
      ensures lock == Acquire(old(lock), r, ttl, now)
    {
      var owner := Get(now);
      locked := owner == None;
      if locked {
        lock := Held(r, now + ttl);
      }
    }

    method RefreshLeadership(r: Uuid, ttl: Ttl, now: int)
      modifies this
      ensures lock == Refresh(old(lock), r, ttl, now)
    {
      var owner := Get(now);
      if owner == Some(r) {
        lock := lock.(expiresAt := now + ttl);
      }
    }

    method ReleaseLeadership(r: Uuid, now: int)
      modifies this
      ensures lock == Release(old(lock), r, now)
    {
      var owner := Get(now);
      if owner == Some(r) {
        lock := Free;
      }
    }
  }

  // ---------- any number of reapers over time ----------

  /** A sweep in progress: its latest refresh call, and the latest one that extended the lock. */
  datatype Session = Session(called: int, extended: int)

  datatype Cluster = Cluster(now: int, lock: Lock, sweeping: map<Uuid, Session>)

  /** Refresh may come from anybody at any time: a ticker outlives the release of its sweep. */
  datatype Step =
    | Tick(seconds: nat)
    | TryAcquire(r: Uuid)
    | RefreshTick(r: Uuid)
    | Finish(r: Uuid)
    | Crash(r: Uuid)

  predicate Enabled(s: Cluster, step: Step) {
    match step
    case TryAcquire(r) => r !in s.sweeping
    case Finish(r) => r in s.sweeping
    case Crash(r) => r in s.sweeping
    case _ => true
  }

  function Next(s: Cluster, step: Step, ttl: Ttl): Cluster {
    match step
    case Tick(d) => s.(now := s.now + d)
    case TryAcquire(r) =>
      if IsFree(s.lock, s.now)
      then s.(lock := Acquire(s.lock, r, ttl, s.now), sweeping := s.sweeping[r := Session(s.now, s.now)])
      else s
    case RefreshTick(r) =>
      var extended := HeldBy(s.lock, r, s.now);
      s.(lock := Refresh(s.lock, r, ttl, s.now),
         sweeping := if r in s.sweeping
                     then s.sweeping[r := Session(s.now, if extended then s.now else s.sweeping[r].extended)]
                     else s.sweeping)
    case Finish(r) => s.(lock := Release(s.lock, r, s.now), sweeping := s.sweeping - {r})
    case Crash(r) => s.(sweeping := s.sweeping - {r})
  }

  const START: Cluster := Cluster(0, Free, map[])

  function Exec(s: Cluster, steps: seq<Step>, ttl: Ttl): Cluster {
    if steps == [] then s else Next(Exec(s, steps[..|steps| - 1], ttl), steps[|steps| - 1], ttl)
  }

  predicate Valid(s: Cluster, steps: seq<Step>, ttl: Ttl) {
    forall i :: 0 <= i < |steps| ==> Enabled(Exec(s, steps[..i], ttl), steps[i])
  }

  /** A sweeping reaper owns the live lock exactly until one TTL after its last extension. */
  ghost predicate Inv(s: Cluster, ttl: Ttl) {
    forall r :: r in s.sweeping ==>
      && s.sweeping[r].extended <= s.sweeping[r].called <= s.now
      && (HeldBy(s.lock, r, s.now) <==> s.now < s.sweeping[r].extended + ttl)
      && (HeldBy(s.lock, r, s.now) ==> s.lock.expiresAt == s.sweeping[r].extended + ttl)
  }

  lemma StepKeepsInv(s: Cluster, step: Step, ttl: Ttl)
    requires Inv(s, ttl) && Enabled(s, step)
    ensures Inv(Next(s, step, ttl), ttl)
  {
  }

  lemma ValidPrefix(s: Cluster, steps: seq<Step>, ttl: Ttl)
    requires Valid(s, steps, ttl) && steps != []
    ensures Valid(s, steps[..|steps| - 1], ttl)
    ensures Enabled(Exec(s, steps[..|steps| - 1], ttl), steps[|steps| - 1])
  {
    var before := steps[..|steps| - 1];
    forall i | 0 <= i < |before| ensures Enabled(Exec(s, before[..i], ttl), before[i]) {
      assert before[..i] == steps[..i];
    }
  }

  lemma {:induction false} AlwaysInv(steps: seq<Step>, ttl: Ttl)
    requires Valid(START, steps, ttl)
    ensures Inv(Exec(START, steps, ttl), ttl)
  {
    if steps != [] {
      ValidPrefix(START, steps, ttl);
      AlwaysInv(steps[..|steps| - 1], ttl);
      StepKeepsInv(Exec(START, steps[..|steps| - 1], ttl), steps[|steps| - 1], ttl);
    }
  }

  /**
   In every run, timely or not: a sweeping reaper is the one that owns the lock exactly if it
   extended the lock less than one TTL ago, so two reapers sweep at once only when at least one
   of them has let its lock lapse.
   */
  lemma OverlapNeedsLapse(steps: seq<Step>, ttl: Ttl, r: Uuid, o: Uuid)
    requires Valid(START, steps, ttl)
    requires var s := Exec(START, steps, ttl); r in s.sweeping && o in s.sweeping && r != o
    ensures var s := Exec(START, steps, ttl);
            && (HeldBy(s.lock, r, s.now) <==> s.now < s.sweeping[r].extended + ttl)
            && (s.sweeping[r].extended + ttl <= s.now || s.sweeping[o].extended + ttl <= s.now)
  {
    AlwaysInv(steps, ttl);
  }

  /** No sweep goes a whole TTL without a refresh call. */
  ghost predicate Timely(steps: seq<Step>, ttl: Ttl) {
    forall i :: 0 <= i <= |steps| ==> TimelyAt(Exec(START, steps[..i], ttl), ttl)
  }

  ghost predicate TimelyAt(s: Cluster, ttl: Ttl) {
    forall r :: r in s.sweeping ==> s.now < s.sweeping[r].called + ttl
  }

  ghost predicate AllExtended(s: Cluster) {
    forall r :: r in s.sweeping ==> s.sweeping[r].called == s.sweeping[r].extended
  }

  lemma TimelyStep(s: Cluster, step: Step, ttl: Ttl)
    requires Inv(s, ttl) && TimelyAt(s, ttl) && AllExtended(s)
    ensures AllExtended(Next(s, step, ttl))
  {
  }

  /** In a timely run every refresh call of a sweeping reaper extends its lock. */
  lemma {:induction false} TimelyCallsExtend(steps: seq<Step>, ttl: Ttl)
    requires Valid(START, steps, ttl) && Timely(steps, ttl)
    ensures AllExtended(Exec(START, steps, ttl))
  {
    if steps != [] {
      var before := steps[..|steps| - 1];
      ValidPrefix(START, steps, ttl);
      assert Timely(before, ttl) by {
        forall i | 0 <= i <= |before| ensures TimelyAt(Exec(START, before[..i], ttl), ttl) {
          assert before[..i] == steps[..i];
        }
      }
      TimelyCallsExtend(before, ttl);
      AlwaysInv(before, ttl);
      assert TimelyAt(Exec(START, steps[..|before|], ttl), ttl);
      TimelyStep(Exec(START, before, ttl), steps[|before|], ttl);
    }
  }

  /** With refreshes less than one TTL apart, at most one reaper is inside a sweep at any instant. */
  lemma LeadershipExclusion(steps: seq<Step>, ttl: Ttl, i: nat, r: Uuid, o: Uuid)
    requires Valid(START, steps, ttl) && Timely(steps, ttl) && i <= |steps|
    requires var s := Exec(START, steps[..i], ttl); r in s.sweeping && o in s.sweeping
    ensures r == o
  {
    var now := steps[..i];
    assert Valid(START, now, ttl) by {
      forall k | 0 <= k < i ensures Enabled(Exec(START, now[..k], ttl), now[k]) {
        assert now[..k] == steps[..k];
      }
    }
    assert Timely(now, ttl) by {
      forall k | 0 <= k <= i ensures TimelyAt(Exec(START, now[..k], ttl), ttl) {
        assert now[..k] == steps[..k];
      }
    }
    TimelyCallsExtend(now, ttl);
    assert now[..i] == now;
    assert TimelyAt(Exec(START, now, ttl), ttl);
    if r != o {
      OverlapNeedsLapse(now, ttl, r, o);
    }
  }

  /** Timeliness is needed: a lock left to lapse lets a second reaper in while the first still sweeps. */
  lemma LateRefreshOverlaps(ttl: Ttl)
    ensures var steps := [TryAcquire(1), Tick(ttl), TryAcquire(2)];
            && Valid(START, steps, ttl)
            && Exec(START, steps, ttl).sweeping.Keys == {1, 2}
  {
    var steps := [TryAcquire(1), Tick(ttl), TryAcquire(2)];
    var s1 := Next(START, steps[0], ttl);
    var s2 := Next(s1, steps[1], ttl);
    assert steps[..0] == [] && steps[..1] == [steps[0]] && steps[..2] == [steps[0], steps[1]];
    assert steps[..1][..0] == [] && steps[..2][..1] == steps[..1] && steps[..3] == steps;
    assert Exec(START, steps[..0], ttl) == START;
    assert Exec(START, steps[..1], ttl) == s1;
    assert Exec(START, steps[..2], ttl) == s2;
  }

  /** No step of any other reaper, timely or late, changes the key while `o` owns it. */
  lemma OthersLeaveLockAlone(s: Cluster, step: Step, ttl: Ttl, o: Uuid)
    requires HeldBy(s.lock, o, s.now) && !step.Tick? && step.r != o
    ensures Next(s, step, ttl).lock == s.lock
  {
  }

  /**
   After `r` has released, no refresh tick of its own, however late and whatever the others do
   meanwhile, extends or deletes any lock until `r` acquires again.
   */
  lemma {:induction false} LateTickIsHarmless(steps: seq<Step>, more: seq<Step>, r: Uuid, ttl: Ttl)
    requires Valid(START, steps, ttl) && Enabled(Exec(START, steps, ttl), Finish(r))
    requires TryAcquire(r) !in more
    ensures var s := Exec(Next(Exec(START, steps, ttl), Finish(r), ttl), more, ttl);
            && !HeldBy(s.lock, r, s.now)
            && Refresh(s.lock, r, ttl, s.now) == s.lock
            && Release(s.lock, r, s.now) == s.lock
  {
    if more != [] {
      LateTickIsHarmless(steps, more[..|more| - 1], r, ttl);
      var s := Exec(Next(Exec(START, steps, ttl), Finish(r), ttl), more[..|more| - 1], ttl);
      var step := more[|more| - 1];
      assert step in more;
      if step.RefreshTick? {
        assert step.r == r ==> Refresh(s.lock, r, ttl, s.now) == s.lock;
      }
    }
  }
}
